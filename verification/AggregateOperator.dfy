/**
 The device side of an aggregate: only the key and the aggregated columns travel,
 each once, and the specification is renumbered to match.
 */
module AggregateOperator {
  import opened Core
  import opened Bags
  import opened Groups
  import opened Plans
  import opened Execs
  import opened Batches
  import opened AggregateMeaning
  import opened AggregateKernel
  import opened FilterOperator

  // -------------------------------------------------------------- renumbering

  /** The key, then each aggregated column once. */
  function TravelCols(spec: AggregateSpec, n: nat): seq<nat>
    requires n <= |spec.aggregates|
  {
    if n == 0 then [spec.groupBy] else PushUnique(TravelCols(spec, n - 1), spec.aggregates[n - 1].1)
  }

  method PlanAggregate(spec: AggregateSpec) returns (plan: SidePlan)
    ensures plan == SidePlan(TravelCols(spec, |spec.aggregates|), false)
  {
    var cols := [spec.groupBy];
    for j := 0 to |spec.aggregates|
      invariant cols == TravelCols(spec, j)
    {
      cols := PushUnique(cols, spec.aggregates[j].1);
    }
    return SidePlan(cols, false);
  }

  lemma {:induction false} TravelMeaning(spec: AggregateSpec, n: nat)
    requires n <= |spec.aggregates|
    ensures TravelCols(spec, n) != [] && TravelCols(spec, n)[0] == spec.groupBy
    ensures forall j :: 0 <= j < n ==> spec.aggregates[j].1 in TravelCols(spec, n)
    ensures forall i, k :: 0 <= i < k < |TravelCols(spec, n)| ==> TravelCols(spec, n)[i] != TravelCols(spec, n)[k]
    ensures forall c :: c in TravelCols(spec, n) ==>
      c == spec.groupBy || exists j :: 0 <= j < n && spec.aggregates[j].1 == c
  {
    if n > 0 {
      TravelMeaning(spec, n - 1);
    }
  }

  function PositionOr0(plan: SidePlan, c: nat): nat {
    if plan.Position(c).Some? then plan.Position(c).value else 0
  }

  /** The same aggregates over the columns that travelled. */
  function Renumber(spec: AggregateSpec, plan: SidePlan): AggregateSpec {
    AggregateSpec(
      PositionOr0(plan, spec.groupBy),
      seq(|spec.aggregates|, j requires 0 <= j < |spec.aggregates| => (spec.aggregates[j].0, PositionOr0(plan, spec.aggregates[j].1))))
  }

  /** Where the cut's columns come from. */
  ghost predicate CutAggregate(b: Batch, sub: Batch, spec: AggregateSpec, spec': AggregateSpec) {
    && Valid(sub) && sub.rows == b.rows && |spec'.aggregates| == |spec.aggregates|
    && SameColumn(b, spec.groupBy, sub, spec'.groupBy)
    && forall j :: 0 <= j < |spec.aggregates| ==>
         spec'.aggregates[j].0 == spec.aggregates[j].0 && SameColumn(b, spec.aggregates[j].1, sub, spec'.aggregates[j].1)
  }

  ghost predicate SameColumn(b: Batch, c: nat, sub: Batch, k: nat) {
    && c < |b.columns| == |b.schema| && k < |sub.columns| == |sub.schema|
    && sub.columns[k] == b.columns[c] && sub.schema[k] == b.schema[c]
  }

  lemma {:induction false} TravelInRange(spec: AggregateSpec, width: nat)
    ensures ColsInRange(TravelCols(spec, |spec.aggregates|), width) <==> SpecInRange(spec, width)
  {
    var cols := TravelCols(spec, |spec.aggregates|);
    TravelMeaning(spec, |spec.aggregates|);
    if ColsInRange(cols, width) {
      assert spec.groupBy in cols;
    }
    if SpecInRange(spec, width) {
      forall i | 0 <= i < |cols| ensures cols[i] < width {
        assert cols[i] in cols;
      }
    }
  }

  /** A travelling column is found again at its position in the cut. */
  lemma {:induction false} PositionSame(plan: SidePlan, b: Batch, c: nat)
    requires Valid(b) && plan.Width() > 0 && plan.SubBatch(b).Ok? && c in plan.deviceCols
    ensures SameColumn(b, c, plan.SubBatch(b).value, PositionOr0(plan, c))
  {
    SubBatchShape(plan, b);
  }

  lemma {:induction false} CutKeeps(b: Batch, spec: AggregateSpec, plan: SidePlan)
    requires Valid(b) && plan == SidePlan(TravelCols(spec, |spec.aggregates|), false)
    ensures plan.SubBatch(b).Ok? <==> SpecInRange(spec, |b.schema|)
    ensures plan.SubBatch(b).Ok? ==> CutAggregate(b, plan.SubBatch(b).value, spec, Renumber(spec, plan))
  {
    TravelMeaning(spec, |spec.aggregates|);
    TravelInRange(spec, |b.schema|);
    SubBatchShape(plan, b);
    if plan.SubBatch(b).Ok? {
      PositionSame(plan, b, spec.groupBy);
      forall j | 0 <= j < |spec.aggregates|
        ensures SameColumn(b, spec.aggregates[j].1, plan.SubBatch(b).value, PositionOr0(plan, spec.aggregates[j].1))
      {
        PositionSame(plan, b, spec.aggregates[j].1);
      }
    }
  }

  lemma {:induction false} RowsAlign(b: Batch, sub: Batch, c: nat, k: nat, i: nat)
    requires Valid(b) && Valid(sub) && SameColumn(b, c, sub, k) && i < b.rows == sub.rows
    ensures At(RowAt(b, i), c) == At(RowAt(sub, i), k)
  {
  }

  /** Rows that agree on key and inputs, position by position, fold alike. */
  lemma {:induction false} AlignedFold(key: Row -> Row, a: Agg, rows: seq<Row>, key': Row -> Row, a': Agg,
                                       rows': seq<Row>, k: Row)
    requires |rows| == |rows'| && a.func == a'.func && a.merging == a'.merging
    requires forall i :: 0 <= i < |rows| ==> key(rows[i]) == key'(rows'[i]) && a.input(rows[i]) == a'.input(rows'[i])
    ensures Fold(key, a, k, rows) == Fold(key', a', k, rows')
    ensures ExactSum(key, a.input, k, rows) == ExactSum(key', a'.input, k, rows')
  {
    if rows != [] {
      AlignedFold(key, a, rows[1..], key', a', rows'[1..], k);
    }
  }

  ghost predicate Aligned(g: Grouping, rows: seq<Row>, g': Grouping, rows': seq<Row>) {
    && |rows| == |rows'| && |g.aggs| == |g'.aggs|
    && (forall i :: 0 <= i < |rows| ==> g.key(rows[i]) == g'.key(rows'[i]))
    && (forall j :: 0 <= j < |g.aggs| ==> g.aggs[j].func == g'.aggs[j].func && g.aggs[j].merging == g'.aggs[j].merging)
    && (forall i, j :: 0 <= i < |rows| && 0 <= j < |g.aggs| ==> g.aggs[j].input(rows[i]) == g'.aggs[j].input(rows'[i]))
  }

  lemma {:induction false} AlignedKeys(g: Grouping, rows: seq<Row>, g': Grouping, rows': seq<Row>)
    requires Aligned(g, rows, g', rows')
    ensures forall k :: k in Keys(g.key, rows) <==> k in Keys(g'.key, rows')
  {
    forall k ensures k in Keys(g.key, rows) <==> k in Keys(g'.key, rows') {
      if k in Keys(g.key, rows) {
        var i :| 0 <= i < |rows| && g.key(rows[i]) == k;
        assert rows'[i] in rows' && g'.key(rows'[i]) == k;
      }
      if k in Keys(g'.key, rows') {
        var i :| 0 <= i < |rows'| && g'.key(rows'[i]) == k;
        assert rows[i] in rows && g.key(rows[i]) == k;
      }
    }
  }

  /** Aligned inputs aggregate to the same bag. */
  lemma {:induction false} AlignedGroups(g: Grouping, rows: seq<Row>, g': Grouping, rows': seq<Row>)
    requires Aligned(g, rows, g', rows')
    ensures Perm(Group(g, rows), Group(g', rows'))
  {
    AlignedKeys(g, rows, g', rows');
    forall k | k in Keys(g.key, rows) ensures GroupRow(g, rows, k) == GroupRow(g', rows', k) {
      forall j | 0 <= j < |g.aggs| ensures Fold(g.key, g.aggs[j], k, rows) == Fold(g'.key, g'.aggs[j], k, rows') {
        AlignedFold(g.key, g.aggs[j], rows, g'.key, g'.aggs[j], rows', k);
      }
    }
    GroupAgrees(g, rows, g', rows');
  }

  lemma {:induction false} CutAligned(b: Batch, sub: Batch, spec: AggregateSpec, spec': AggregateSpec)
    requires Valid(b) && CutAggregate(b, sub, spec, spec')
    ensures Aligned(SpecGrouping(spec), RowsOf(b), SpecGrouping(spec'), RowsOf(sub))
  {
    var (g, g') := (SpecGrouping(spec), SpecGrouping(spec'));
    forall i | 0 <= i < b.rows ensures g.key(RowsOf(b)[i]) == g'.key(RowsOf(sub)[i]) {
      RowsAlign(b, sub, spec.groupBy, spec'.groupBy, i);
      assert g.key(RowAt(b, i)) == [At(RowAt(b, i), spec.groupBy)];
      assert g'.key(RowAt(sub, i)) == [At(RowAt(sub, i), spec'.groupBy)];
    }
    forall i, j | 0 <= i < b.rows && 0 <= j < |g.aggs| ensures g.aggs[j].input(RowsOf(b)[i]) == g'.aggs[j].input(RowsOf(sub)[i]) {
      RowsAlign(b, sub, spec.aggregates[j].1, spec'.aggregates[j].1, i);
    }
  }

  lemma {:induction false} CutSchema(b: Batch, sub: Batch, spec: AggregateSpec, spec': AggregateSpec)
    requires CutAggregate(b, sub, spec, spec')
    ensures OutputSchema(sub.schema, spec') == OutputSchema(b.schema, spec)
  {
    if SpecTyped(b.schema, spec) {
      assert SpecTyped(sub.schema, spec');
      assert OutputSchema(sub.schema, spec').value == OutputSchema(b.schema, spec).value;
    } else {
      assert !SpecTyped(sub.schema, spec');
    }
  }

  lemma {:induction false} CutInputs(b: Batch, sub: Batch, spec: AggregateSpec, spec': AggregateSpec)
    requires CutAggregate(b, sub, spec, spec') && IntInputs(b.schema, spec)
    ensures IntInputs(sub.schema, spec')
  {
    forall j | 0 <= j < |spec'.aggregates| && !spec'.aggregates[j].0.Count? ensures !sub.schema[spec'.aggregates[j].1].dtype.Float64? {
      assert SameColumn(b, spec.aggregates[j].1, sub, spec'.aggregates[j].1);
    }
  }

  // ------------------------------------------------------------ wrapping sums

  /** Every group sum the device returns is the exact one. */
  ghost predicate SumsExact(g: Grouping, rows: seq<Row>) {
    forall j, k :: 0 <= j < |g.aggs| && g.aggs[j].func.Sum? && k in Keys(g.key, rows) && Hits(g.key, g.aggs[j].input, k, rows) > 0
                   ==> Fold(g.key, g.aggs[j], k, rows) == AsCell(ExactSum(g.key, g.aggs[j].input, k, rows))
  }

  function AsCell(x: int): Value {
    if FitsI64(x) then I64(x) else Null
  }

  /** Wrapping in 64 bits is exact if and only if no exact sum leaves 64 bits. */
  lemma {:induction false} WrapExactIff(g: Grouping, rows: seq<Row>)
    requires forall j :: 0 <= j < |g.aggs| && g.aggs[j].func.Sum? ==> !g.aggs[j].merging
    requires forall j, k :: 0 <= j < |g.aggs| && g.aggs[j].func.Sum? && k in Keys(g.key, rows) ==>
      Integral(g.key, g.aggs[j].input, k, rows)
    ensures SumsExact(g, rows) <==> SumsFit(g, rows)
  {
    forall j, k | 0 <= j < |g.aggs| && g.aggs[j].func.Sum? && k in Keys(g.key, rows)
      ensures FitsI64(ExactSum(g.key, g.aggs[j].input, k, rows))
          <==> Hits(g.key, g.aggs[j].input, k, rows) > 0 ==>
                 Fold(g.key, g.aggs[j], k, rows) == AsCell(ExactSum(g.key, g.aggs[j].input, k, rows))
    {
      assert g.aggs[j] == Agg(Sum, false, g.aggs[j].input);
      if Hits(g.key, g.aggs[j].input, k, rows) > 0 {
        SumIsExact(g.key, g.aggs[j].input, k, rows);
      } else {
        SumBound(g.key, g.aggs[j].input, k, rows);
      }
    }
  }

  // ---------------------------------------------------------------- the device

  datatype Answer = Works | Declines | Fails

  /** What a working device returns: the kernel's schema and groups, sums wrapped to 64 bits. */
  ghost predicate DeviceAnswer(out: Batch, sub: Batch, spec: AggregateSpec) {
    && SpecTyped(sub.schema, spec) && out.schema == OutputSchema(sub.schema, spec).value
    && Perm(RowsOf(out), Group(SpecGrouping(spec), RowsOf(sub)))
  }

  /** A device: its answer, and what it returns for each cut when it works. */
  datatype AggDevice = AggDevice(answer: Answer, output: (Batch, AggregateSpec) -> Batch)

  /** Whatever typed integer aggregation it is given, the device returns its groups. */
  ghost predicate Computes(d: AggDevice) {
    forall sub: Batch, spec: AggregateSpec ::
      SpecTyped(sub.schema, spec) && IntInputs(sub.schema, spec) ==> DeviceAnswer(d.output(sub, spec), sub, spec)
  }

  /** A batch spelling the given rows. */
  function Spelled(s: Schema, rows: seq<Row>): (b: Batch)
    ensures b.schema == s && b.rows == |rows| && |b.columns| == |s|
    ensures forall c, i :: 0 <= c < |s| && 0 <= i < |rows| ==>
      |b.columns[c]| == |rows| && b.columns[c][i] == At(rows[i], c)
  {
    Batch(s, seq(|s|, c requires 0 <= c < |s| => seq(|rows|, i requires 0 <= i < |rows| => At(rows[i], c))), |rows|)
  }

  lemma {:induction false} SpelledRows(s: Schema, rows: seq<Row>)
    requires forall i :: 0 <= i < |rows| ==> |rows[i]| == |s|
    ensures RowsOf(Spelled(s, rows)) == rows
  {
    forall i | 0 <= i < |rows| ensures RowAt(Spelled(s, rows), i) == rows[i] {
    }
  }

  lemma {:induction false} GroupWidths(g: Grouping, rows: seq<Row>, ks: seq<Row>)
    requires forall k :: k in ks ==> |k| == 1
    ensures forall r :: r in FlatMap(RowOf(g, rows), ks) ==> |r| == 1 + |g.aggs|
  {
    if ks != [] {
      GroupWidths(g, rows, ks[1..]);
    }
  }

  function OneByOne(sub: Batch, spec: AggregateSpec): Batch {
    Spelled(if SpecTyped(sub.schema, spec) then OutputSchema(sub.schema, spec).value else [], Group(SpecGrouping(spec), RowsOf(sub)))
  }

  /** The contract can be met: a device that spells out the groups meets it. */
  lemma {:induction false} SomeDeviceComputes()
    ensures Computes(AggDevice(Works, OneByOne))
  {
    forall sub: Batch, spec: AggregateSpec | SpecTyped(sub.schema, spec) ensures DeviceAnswer(OneByOne(sub, spec), sub, spec) {
      var (g, rows) := (SpecGrouping(spec), RowsOf(sub));
      GroupWidths(g, rows, Keys(g.key, rows));
      SpelledRows(OutputSchema(sub.schema, spec).value, Group(g, rows));
    }
  }

  /** Cuts the batch and aggregates on the device. */
  method AggregateOnDevice(b: Batch, spec: AggregateSpec, device: AggDevice) returns (r: Result<Outcome>)
    requires Valid(b) && IntInputs(b.schema, spec) && Computes(device)
    ensures r.Ok? && r.value.Ran? ==>
      && SpecTyped(b.schema, spec) && r.value.batch.schema == OutputSchema(b.schema, spec).value
      && Perm(RowsOf(r.value.batch), Group(SpecGrouping(spec), RowsOf(b)))
    ensures r.Err? ==> device.answer.Fails? || !SpecTyped(b.schema, spec)
    ensures SpecTyped(b.schema, spec) ==>
      (match device.answer
       case Works => r.Ok? && r.value.Ran?
       case Declines => r == Ok(Declined)
       case Fails => r.Err?)
  {
    var plan := PlanAggregate(spec);
    CutKeeps(b, spec, plan);
    var sub := plan.SubBatch(b);
    if sub.Err? {
      return Err(sub.error);
    }
    var spec' := Renumber(spec, plan);
    CutSchema(b, sub.value, spec, spec');
    CutInputs(b, sub.value, spec, spec');
    if device.answer.Fails? {
      return Err(ExecutionError);
    }
    // Types the kernel has no accumulator for are `Unsupported` there.
    if device.answer.Declines? || !SpecTyped(sub.value.schema, spec') {
      return Ok(Declined);
    }
    CutAligned(b, sub.value, spec, spec');
    AlignedGroups(SpecGrouping(spec), RowsOf(b), SpecGrouping(spec'), RowsOf(sub.value));
    return Ok(Ran(device.output(sub.value, spec')));
  }
}
