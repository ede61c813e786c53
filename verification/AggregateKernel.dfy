/**
 The reference grouped aggregate: one pass that finds or opens a group per row and
 folds the row into its accumulators, then one output row per group, ordered by key.
 */
module AggregateKernel {
  import opened Core
  import opened Bags
  import opened Groups
  import opened Plans
  import opened Execs
  import opened Batches
  import opened AggregateMeaning

  const I128_MAX: int := TWO_63 * TWO_64 - 1
  type i128 = x: int | -I128_MAX - 1 <= x <= I128_MAX

  /** A running aggregate. Only the count of a floating-point column is modelled. */
  datatype Acc =
    | IntAcc(count: i64, sum: i128, min: i64, max: i64)
    | FloatAcc(count: i64)

  function Fresh(t: DataType): Acc {
    if t.Int64? then IntAcc(0, 0, I64_MAX, I64_MIN) else FloatAcc(0)
  }

  /** Folds one cell in; a `NULL` changes nothing. */
  function Bump(acc: Acc, v: Value): Acc
    requires acc.count < I64_MAX
    requires acc.IntAcc? && v.I64? ==> -I128_MAX - 1 <= acc.sum + v.i <= I128_MAX
  {
    match acc
    case IntAcc(count, sum, min, max) =>
      if v.I64? then IntAcc(count + 1, sum + v.i, if v.i < min then v.i else min, if v.i > max then v.i else max) else acc
    case FloatAcc(count) =>
      if v.F64? then FloatAcc(count + 1) else acc
  }

  /** The accumulator of group `k` after these rows. */
  ghost predicate Tracks(acc: Acc, key: Row -> Row, input: Row -> Value, k: Row, rows: seq<Row>) {
    && acc.count == Hits(key, input, k, rows)
    && (acc.IntAcc? ==>
          && Integral(key, input, k, rows)
          && acc.sum == ExactSum(key, input, k, rows)
          && (acc.count == 0 ==> acc.min == I64_MAX && acc.max == I64_MIN)
          && (acc.count > 0 ==> Least(acc.min, key, input, k, rows) && Greatest(acc.max, key, input, k, rows)))
  }

  /** Cells of the accumulator's own type. */
  ghost predicate Fits(acc: Acc, v: Value) {
    v.Null? || (if acc.IntAcc? then v.I64? else v.F64?)
  }

  /** Fewer than 2^63 rows cannot overflow a count, nor their sum 128 bits. */
  lemma {:induction false} NoOverflow(acc: Acc, key: Row -> Row, input: Row -> Value, k: Row, rows: seq<Row>, v: Value)
    requires Tracks(acc, key, input, k, rows) && |rows| < I64_MAX
    ensures acc.count < I64_MAX
    ensures acc.IntAcc? && v.I64? ==> -I128_MAX - 1 <= acc.sum + v.i <= I128_MAX
  {
    HitsBound(key, input, k, rows);
    SumBound(key, input, k, rows);
  }

  lemma {:induction false} OneRow(key: Row -> Row, input: Row -> Value, k: Row, r: Row)
    ensures Hits(key, input, k, [r]) == if Hit(key, input, k, r) then 1 else 0
    ensures ExactSum(key, input, k, [r]) == if key(r) == k && input(r).I64? then input(r).i else 0
  {
    assert [r][1..] == [];
  }

  lemma {:induction false} TrackHit(acc: Acc, key: Row -> Row, input: Row -> Value, k: Row, rows: seq<Row>, r: Row)
    requires Tracks(acc, key, input, k, rows) && |rows| < I64_MAX && key(r) == k && Fits(acc, input(r))
    ensures acc.count < I64_MAX && (acc.IntAcc? && input(r).I64? ==> -I128_MAX - 1 <= acc.sum + input(r).i <= I128_MAX)
    ensures Tracks(Bump(acc, input(r)), key, input, k, rows + [r])
  {
    NoOverflow(acc, key, input, k, rows, input(r));
    HitsAppend(key, input, k, rows, [r]);
    ExactSumAppend(key, input, k, rows, [r]);
    OneRow(key, input, k, r);
    HitsBound(key, input, k, rows);
    assert forall s :: s in rows + [r] <==> s in rows || s == r;
  }

  lemma {:induction false} TrackMiss(acc: Acc, key: Row -> Row, input: Row -> Value, k: Row, rows: seq<Row>, r: Row)
    requires Tracks(acc, key, input, k, rows) && key(r) != k
    ensures Tracks(acc, key, input, k, rows + [r])
  {
    HitsAppend(key, input, k, rows, [r]);
    ExactSumAppend(key, input, k, rows, [r]);
    OneRow(key, input, k, r);
    assert forall s :: s in rows + [r] <==> s in rows || s == r;
  }

  /** A group not seen yet starts from a fresh accumulator. */
  lemma {:induction false} TrackFresh(t: DataType, key: Row -> Row, input: Row -> Value, k: Row, rows: seq<Row>)
    requires forall r :: r in rows ==> key(r) != k
    ensures Tracks(Fresh(t), key, input, k, rows)
  {
    if rows != [] {
      TrackFresh(t, key, input, k, rows[1..]);
      assert rows[0] in rows;
    }
  }

  // ----------------------------------------------------------- reading results

  /** The output cell of one group. */
  function Finish(f: AggFn, acc: Acc): Result<Value> {
    match f
    case Count => Ok(I64(acc.count))
    case Sum =>
      if acc.IntAcc? && acc.count > 0 then (if FitsI64(acc.sum) then Ok(I64(acc.sum)) else Err(ExecutionError)) else Ok(Null)
    case Min => Ok(if acc.IntAcc? && acc.count > 0 then I64(acc.min) else Null)
    case Max => Ok(if acc.IntAcc? && acc.count > 0 then I64(acc.max) else Null)
  }

  /** The output cell is the group's aggregate, or an error exactly when the exact sum does not fit. */
  lemma {:induction false} FinishMeaning(f: AggFn, acc: Acc, key: Row -> Row, input: Row -> Value, k: Row,
                                         rows: seq<Row>)
    requires Tracks(acc, key, input, k, rows) && |rows| <= I64_MAX && (f.Count? || acc.IntAcc?)
    ensures Finish(f, acc).Err? <==> f.Sum? && !FitsI64(ExactSum(key, input, k, rows))
    ensures Finish(f, acc).Ok? ==> Finish(f, acc).value == Fold(key, Agg(f, false, input), k, rows)
  {
    match f {
      case Count => CountIsHits(key, input, k, rows);
      case Sum =>
        var q := SumWraps(key, input, k, rows);
      case Min => MinIsLeast(key, input, k, rows);
        HitsBound(key, input, k, rows);
      case Max => MaxIsGreatest(key, input, k, rows);
        HitsBound(key, input, k, rows);
    }
  }

  // ------------------------------------------------------------- the group table

  /** Groups in order of first appearance, and where to find each. */
  datatype Table = Table(index: map<Value, nat>, keys: seq<Value>, accs: seq<seq<Acc>>)

  ghost predicate Indexed(index: map<Value, nat>, keys: seq<Value>) {
    && (forall v :: v in index <==> v in keys)
    && (forall v :: v in index ==> index[v] < |keys| && keys[index[v]] == v)
    && (forall i :: 0 <= i < |keys| ==> keys[i] in index && index[keys[i]] == i)
  }

  /** One accumulator per aggregate, of the column's type, up to date for group `k`. */
  ghost predicate RowTracks(accs: seq<Acc>, types: seq<DataType>, g: Grouping, k: Row, rows: seq<Row>) {
    && |accs| == |g.aggs| == |types|
    && forall j :: 0 <= j < |accs| ==>
      accs[j].IntAcc? == types[j].Int64? && Tracks(accs[j], g.key, g.aggs[j].input, k, rows)
  }

  ghost predicate Present(keys: seq<Value>, key: Row -> Row, rows: seq<Row>) {
    forall v :: v in keys <==> HasKey(key, v, rows)
  }

  ghost predicate HasKey(key: Row -> Row, v: Value, rows: seq<Row>) {
    exists r :: r in rows && key(r) == [v]
  }

  ghost predicate TableFor(t: Table, types: seq<DataType>, g: Grouping, rows: seq<Row>) {
    && |t.accs| == |t.keys| && Indexed(t.index, t.keys) && Present(t.keys, g.key, rows)
    && forall i :: 0 <= i < |t.keys| ==> RowTracks(t.accs[i], types, g, [t.keys[i]], rows)
  }

  /** Finds the group of key `v`, opening it if it is new. */
  method FindGroup(t: Table, v: Value, types: seq<DataType>, ghost g: Grouping,
                   ghost rows: seq<Row>) returns (t': Table, i: nat)
    requires TableFor(t, types, g, rows) && |types| == |g.aggs|
    ensures i < |t'.keys| == |t'.accs| && t'.keys[i] == v && Indexed(t'.index, t'.keys)
    ensures forall w :: w in t'.keys <==> w in t.keys || w == v
    ensures forall l :: 0 <= l < |t'.keys| ==> RowTracks(t'.accs[l], types, g, [t'.keys[l]], rows)
  {
    if v in t.index {
      return t, t.index[v];
    }
    var fresh_: seq<Acc> := [];
    assert !HasKey(g.key, v, rows);
    for j := 0 to |types|
      invariant |fresh_| == j
      invariant forall l :: 0 <= l < j ==> fresh_[l] == Fresh(types[l])
    {
      fresh_ := fresh_ + [Fresh(types[j])];
    }
    forall j | 0 <= j < |types| ensures Tracks(fresh_[j], g.key, g.aggs[j].input, [v], rows) {
      TrackFresh(types[j], g.key, g.aggs[j].input, [v], rows);
    }
    return Table(t.index[v := |t.keys|], t.keys + [v], t.accs + [fresh_]), |t.keys|;
  }

  /** Folds a row's cells into its group's accumulators. */
  method BumpAll(accs: seq<Acc>, cells: seq<Value>, types: seq<DataType>, ghost g: Grouping, ghost k: Row,
                 ghost rows: seq<Row>, ghost r: Row)
    returns (out: seq<Acc>)
    requires RowTracks(accs, types, g, k, rows) && |rows| < I64_MAX && g.key(r) == k
    requires |cells| == |accs|
    requires forall j :: 0 <= j < |accs| ==> cells[j] == g.aggs[j].input(r) && Fits(accs[j], cells[j])
    ensures RowTracks(out, types, g, k, rows + [r])
  {
    out := [];
    for j := 0 to |accs|
      invariant |out| == j
      invariant forall l :: 0 <= l < j ==>
        out[l].IntAcc? == types[l].Int64? && Tracks(out[l], g.key, g.aggs[l].input, k, rows + [r])
    {
      TrackHit(accs[j], g.key, g.aggs[j].input, k, rows, r);
      out := out + [Bump(accs[j], cells[j])];
    }
  }

  lemma {:induction false} OthersTrack(accs: seq<Acc>, types: seq<DataType>, g: Grouping, k: Row, rows: seq<Row>,
                                       r: Row)
    requires RowTracks(accs, types, g, k, rows) && g.key(r) != k
    ensures RowTracks(accs, types, g, k, rows + [r])
  {
    forall j | 0 <= j < |accs| ensures Tracks(accs[j], g.key, g.aggs[j].input, k, rows + [r]) {
      TrackMiss(accs[j], g.key, g.aggs[j].input, k, rows, r);
    }
  }

  lemma {:induction false} PresentSnoc(keys: seq<Value>, key: Row -> Row, rows: seq<Row>, r: Row, v: Value,
                                       keys': seq<Value>)
    requires Present(keys, key, rows) && key(r) == [v]
    requires forall w :: w in keys' <==> w in keys || w == v
    ensures Present(keys', key, rows + [r])
  {
    forall w ensures w in keys' <==> HasKey(key, w, rows + [r]) {
      assert forall s :: s in rows + [r] <==> s in rows || s == r;
      if HasKey(key, w, rows) {
        var s :| s in rows && key(s) == [w];
        assert s in rows + [r];
      }
      if w == v {
        assert r in rows + [r];
      }
      if HasKey(key, w, rows + [r]) {
        var s :| s in rows + [r] && key(s) == [w];
        assert s in rows || s == r;
      }
    }
  }

  /** One row of the pass: find or open its group, fold the row in. */
  method FoldRow(t: Table, v: Value, cells: seq<Value>, types: seq<DataType>, ghost g: Grouping, ghost rows: seq<Row>,
                 ghost r: Row) returns (t': Table)
    requires TableFor(t, types, g, rows) && |rows| < I64_MAX && |cells| == |types| == |g.aggs|
    requires g.key(r) == [v]
    requires forall j :: 0 <= j < |cells| ==>
      cells[j] == g.aggs[j].input(r) && HasType(cells[j], types[j]) && Aggregable(types[j])
    ensures TableFor(t', types, g, rows + [r])
  {
    var found, i := FindGroup(t, v, types, g, rows);
    var bumped := BumpAll(found.accs[i], cells, types, g, [v], rows, r);
    t' := Table(found.index, found.keys, found.accs[i := bumped]);
    PresentSnoc(t.keys, g.key, rows, r, v, t'.keys);
    forall l | 0 <= l < |t'.keys| ensures RowTracks(t'.accs[l], types, g, [t'.keys[l]], rows + [r]) {
      if l != i {
        assert found.index[found.keys[l]] == l && found.index[v] == i;
        OthersTrack(found.accs[l], types, g, [t'.keys[l]], rows, r);
      }
    }
  }

  /** The cells of the aggregate columns in row `i`. */
  function Cells(b: Batch, spec: AggregateSpec, i: nat): (cs: seq<Value>)
    ensures |cs| == |spec.aggregates|
    ensures forall j :: 0 <= j < |cs| ==> cs[j] == At(ColumnAt(b, spec.aggregates[j].1), i)
  {
    seq(|spec.aggregates|, j requires 0 <= j < |spec.aggregates| => At(ColumnAt(b, spec.aggregates[j].1), i))
  }

  function InputTypes(s: Schema, spec: AggregateSpec): (ts: seq<DataType>)
    requires SpecTyped(s, spec)
    ensures |ts| == |spec.aggregates|
    ensures forall j :: 0 <= j < |ts| ==> ts[j] == s[spec.aggregates[j].1].dtype
  {
    seq(|spec.aggregates|, j requires 0 <= j < |spec.aggregates| => s[spec.aggregates[j].1].dtype)
  }

  lemma {:induction false} RowCells(b: Batch, spec: AggregateSpec, i: nat)
    requires Valid(b) && SpecTyped(b.schema, spec) && i < b.rows
    ensures var (g, r) := (SpecGrouping(spec), RowAt(b, i));
            && g.key(r) == [b.columns[spec.groupBy][i]]
            && |g.aggs| == |spec.aggregates|
            && forall j :: 0 <= j < |g.aggs| ==>
                 g.aggs[j].input(r) == Cells(b, spec, i)[j] && HasType(Cells(b, spec, i)[j], b.schema[spec.aggregates[j].1].dtype)
  {
    var (g, r) := (SpecGrouping(spec), RowAt(b, i));
    assert g.key(r) == [At(r, spec.groupBy)];
  }

  /** The pass over the batch. */
  method GroupRows(b: Batch, spec: AggregateSpec) returns (t: Table)
    requires Valid(b) && SpecTyped(b.schema, spec)
    ensures TableFor(t, InputTypes(b.schema, spec), SpecGrouping(spec), RowsOf(b))
  {
    t := Table(map[], [], []);
    var types := InputTypes(b.schema, spec);
    ghost var rows := RowsOf(b);
    for i := 0 to b.rows
      invariant TableFor(t, types, SpecGrouping(spec), rows[..i])
    {
      RowCells(b, spec, i);
      t := FoldRow(t, b.columns[spec.groupBy][i], Cells(b, spec, i), types, SpecGrouping(spec), rows[..i], rows[i]);
      assert rows[..i] + [rows[i]] == rows[..i + 1];
    }
    assert rows[..b.rows] == rows;
  }

  // --------------------------------------------------------------- key order

  /** Ascending keys, `NULL` last. */
  predicate KeyBefore(a: Value, b: Value) {
    a.I64? && (b.Null? || (b.I64? && a.i < b.i))
  }

  /** Keys are listed by value, the `NULL` key last. */
  lemma {:induction false} KeyOrder(x: i64, y: i64)
    ensures KeyBefore(I64(x), I64(y)) <==> x < y
    ensures KeyBefore(I64(x), Null) && !KeyBefore(Null, I64(x)) && !KeyBefore(Null, Null)
  {
  }

  ghost predicate Ordered(keys: seq<Value>, order: seq<nat>) {
    && (forall s :: 0 <= s < |order| ==> order[s] < |keys|)
    && (forall s, t :: 0 <= s < t < |order| ==> KeyBefore(keys[order[s]], keys[order[t]]))
  }

  ghost predicate IntKeys(keys: seq<Value>) {
    && (forall i :: 0 <= i < |keys| ==> keys[i].Null? || keys[i].I64?)
    && (forall i, j :: 0 <= i < j < |keys| ==> keys[i] != keys[j])
  }

  /** `order` lists every group, by key. */
  ghost predicate Arranged(keys: seq<Value>, order: seq<nat>) {
    Ordered(keys, order) && forall i: nat :: i < |keys| ==> i in order
  }

  /** The groups by key. */
  method SortGroups(keys: seq<Value>) returns (order: seq<nat>)
    requires IntKeys(keys)
    ensures Arranged(keys, order)
  {
    order := [];
    for i: nat := 0 to |keys|
      invariant Ordered(keys, order) && |order| == i
      invariant forall l: nat :: l < i <==> l in order
    {
      var p := Place(keys, order, i);
      InsertMember(order, p, i);
      order := order[..p] + [i] + order[p..];
    }
  }

  lemma {:induction false} InsertMember(order: seq<nat>, p: nat, i: nat)
    requires p <= |order|
    ensures forall l: nat :: l in order[..p] + [i] + order[p..] <==> l in order || l == i
  {
    var placed := order[..p] + [i] + order[p..];
    assert placed[p] == i;
    forall l: nat | l in order ensures l in placed {
      var s :| 0 <= s < |order| && order[s] == l;
      assert placed[if s < p then s else s + 1] == l;
    }
  }

  /** Where group `i` belongs among the groups already ordered. */
  method Place(keys: seq<Value>, order: seq<nat>, i: nat) returns (p: nat)
    requires IntKeys(keys) && Ordered(keys, order) && i < |keys|
    requires forall l: nat :: l in order ==> l < i
    ensures p <= |order|
    ensures Ordered(keys, order[..p] + [i] + order[p..])
  {
    p := |order|;
    while p > 0 && KeyBefore(keys[i], keys[order[p - 1]])
      invariant p <= |order|
      invariant forall s :: p <= s < |order| ==> KeyBefore(keys[i], keys[order[s]])
    {
      p := p - 1;
    }
    if p > 0 {
      assert order[p - 1] in order;
      assert KeyBefore(keys[order[p - 1]], keys[i]);
    }
    var placed := order[..p] + [i] + order[p..];
    forall s, t | 0 <= s < t < |placed| ensures KeyBefore(keys[placed[s]], keys[placed[t]]) {
      if t == p && s < p - 1 {
        assert KeyBefore(keys[order[s]], keys[order[p - 1]]);
      }
    }
  }

  // --------------------------------------------------------------- the kernel

  /** No aggregate other than `COUNT` reads a floating-point column. */
  predicate IntInputs(s: Schema, spec: AggregateSpec) {
    forall j :: 0 <= j < |spec.aggregates| && !spec.aggregates[j].0.Count? ==>
      spec.aggregates[j].1 < |s| ==> !s[spec.aggregates[j].1].dtype.Float64?
  }

  /** Aggregate `j` of group `v` is a sum outside 64 bits. */
  ghost predicate Overflows(g: Grouping, j: nat, v: Value, rows: seq<Row>)
    requires j < |g.aggs|
  {
    g.aggs[j].func.Sum? && !FitsI64(ExactSum(g.key, g.aggs[j].input, [v], rows))
  }

  ghost predicate ColumnOverflows(g: Grouping, j: nat, keys: seq<Value>, rows: seq<Row>)
    requires j < |g.aggs|
  {
    exists i :: 0 <= i < |keys| && Overflows(g, j, keys[i], rows)
  }

  /** The column holds aggregate `j`, group by group. */
  ghost predicate ColumnOf(col: seq<Value>, g: Grouping, j: nat, keyCol: seq<Value>, rows: seq<Row>)
    requires j < |g.aggs|
  {
    |col| == |keyCol| && forall s :: 0 <= s < |keyCol| ==> col[s] == Fold(g.key, g.aggs[j], [keyCol[s]], rows)
  }

  function Reordered(keys: seq<Value>, order: seq<nat>): (r: seq<Value>)
    requires forall s :: 0 <= s < |order| ==> order[s] < |keys|
    ensures |r| == |order| && forall s :: 0 <= s < |order| ==> r[s] == keys[order[s]]
  {
    seq(|order|, s requires 0 <= s < |order| => keys[order[s]])
  }

  /** Accumulator `j` of every group is ready to be read. */
  ghost predicate ReadyColumn(t: Table, j: nat, g: Grouping, rows: seq<Row>) {
    && |t.accs| == |t.keys| && j < |g.aggs| && !g.aggs[j].merging
    && forall i :: 0 <= i < |t.keys| ==> ReadyCell(t, i, j, g, rows)
  }

  ghost predicate ReadyCell(t: Table, i: nat, j: nat, g: Grouping, rows: seq<Row>)
    requires i < |t.keys| == |t.accs| && j < |g.aggs|
  {
    && j < |t.accs[i]| && (g.aggs[j].func.Count? || t.accs[i][j].IntAcc?)
    && Tracks(t.accs[i][j], g.key, g.aggs[j].input, [t.keys[i]], rows)
  }

  lemma {:induction false} ReadCell(t: Table, i: nat, j: nat, g: Grouping, rows: seq<Row>)
    requires ReadyColumn(t, j, g, rows) && i < |t.keys| && |rows| <= I64_MAX
    ensures j < |t.accs[i]|
    ensures Finish(g.aggs[j].func, t.accs[i][j]).Err? <==> Overflows(g, j, t.keys[i], rows)
    ensures Finish(g.aggs[j].func, t.accs[i][j]).Ok? ==>
      Finish(g.aggs[j].func, t.accs[i][j]).value == Fold(g.key, g.aggs[j], [t.keys[i]], rows)
  {
    assert ReadyCell(t, i, j, g, rows);
    FinishMeaning(g.aggs[j].func, t.accs[i][j], g.key, g.aggs[j].input, [t.keys[i]], rows);
  }

  /** Column `j` of the result: one cell per group, in order. */
  method FinishColumn(t: Table, order: seq<nat>, j: nat, f: AggFn, ghost g: Grouping,
                      ghost rows: seq<Row>) returns (r: Result<seq<Value>>)
    requires ReadyColumn(t, j, g, rows) && |rows| <= I64_MAX && g.aggs[j].func == f
    requires Arranged(t.keys, order)
    ensures r.Err? <==> ColumnOverflows(g, j, t.keys, rows)
    ensures r.Ok? ==> ColumnOf(r.value, g, j, Reordered(t.keys, order), rows)
  {
    var cells: seq<Value> := [];
    for s := 0 to |order|
      invariant |cells| == s
      invariant forall l :: 0 <= l < s ==>
        cells[l] == Fold(g.key, g.aggs[j], [t.keys[order[l]]], rows) && !Overflows(g, j, t.keys[order[l]], rows)
    {
      ReadCell(t, order[s], j, g, rows);
      var cell := Finish(f, t.accs[order[s]][j]);
      if cell.Err? {
        return Err(cell.error);
      }
      cells := cells + [cell.value];
    }
    forall i | 0 <= i < |t.keys| ensures !Overflows(g, j, t.keys[i], rows) {
      assert i in order;
      var l :| 0 <= l < |order| && order[l] == i;
    }
    return Ok(cells);
  }

  /** One row per group: its schema, its bag of rows, and the order of its keys. */
  ghost predicate AggregateOf(out: Batch, b: Batch, spec: AggregateSpec)
    requires SpecTyped(b.schema, spec)
  {
    && out.schema == OutputSchema(b.schema, spec).value
    && |out.columns| == 1 + |spec.aggregates|
    && (forall c :: 0 <= c < |out.columns| ==> |out.columns[c]| == out.rows)
    && Perm(RowsOf(out), Group(SpecGrouping(spec), RowsOf(b)))
    && (forall s, t :: 0 <= s < t < out.rows ==> KeyBefore(out.columns[0][s], out.columns[0][t]))
  }

  /** The table's keys are the batch's groups: integers or `NULL`, each once. */
  lemma {:induction false} TableKeys(t: Table, types: seq<DataType>, b: Batch, spec: AggregateSpec)
    requires Valid(b) && SpecTyped(b.schema, spec) && TableFor(t, types, SpecGrouping(spec), RowsOf(b))
    ensures IntKeys(t.keys)
    ensures KeysAre(Keys(SpecGrouping(spec).key, RowsOf(b)), t.keys)
  {
    var (g, rows) := (SpecGrouping(spec), RowsOf(b));
    forall i | 0 <= i < |t.keys| ensures t.keys[i].Null? || t.keys[i].I64? {
      assert HasKey(g.key, t.keys[i], rows);
      var n :| 0 <= n < |rows| && g.key(rows[n]) == [t.keys[i]];
      RowCells(b, spec, n);
    }
    forall k ensures k in Keys(g.key, rows) <==> |k| == 1 && k[0] in t.keys {
      if k in Keys(g.key, rows) {
        var n :| 0 <= n < |rows| && g.key(rows[n]) == k;
        RowCells(b, spec, n);
        assert HasKey(g.key, k[0], rows);
      }
      if |k| == 1 && k[0] in t.keys {
        assert HasKey(g.key, k[0], rows);
        assert k == [k[0]];
      }
    }
  }

  /** These rows are the keys, one cell each. */
  ghost predicate KeysAre(ks: seq<Row>, keys: seq<Value>) {
    forall k :: k in ks <==> |k| == 1 && k[0] in keys
  }

  /** Every sum fits if and only if no column overflows. */
  lemma {:induction false} FitIffNoOverflow(g: Grouping, keys: seq<Value>, rows: seq<Row>)
    requires KeysAre(Keys(g.key, rows), keys)
    ensures SumsFit(g, rows) <==> forall j :: 0 <= j < |g.aggs| ==> !ColumnOverflows(g, j, keys, rows)
  {
    if SumsFit(g, rows) {
      forall j, i | 0 <= j < |g.aggs| && 0 <= i < |keys| ensures !Overflows(g, j, keys[i], rows) {
        assert [keys[i]] in Keys(g.key, rows);
      }
    }
    if forall j :: 0 <= j < |g.aggs| ==> !ColumnOverflows(g, j, keys, rows) {
      forall j, k | 0 <= j < |g.aggs| && g.aggs[j].func.Sum? && k in Keys(g.key, rows)
        ensures FitsI64(ExactSum(g.key, g.aggs[j].input, k, rows))
      {
        var i :| 0 <= i < |keys| && keys[i] == k[0];
        assert !ColumnOverflows(g, j, keys, rows);
        assert !Overflows(g, j, keys[i], rows);
        assert k == [keys[i]];
      }
    }
  }

  /** Each column holds its aggregate, group by group. */
  ghost predicate ColumnsOf(cols: seq<seq<Value>>, g: Grouping, keyCol: seq<Value>, rows: seq<Row>) {
    |cols| == |g.aggs| && forall j :: 0 <= j < |cols| ==> ColumnOf(cols[j], g, j, keyCol, rows)
  }

  lemma {:induction false} TableReady(t: Table, types: seq<DataType>, spec: AggregateSpec, rows: seq<Row>, j: nat)
    requires TableFor(t, types, SpecGrouping(spec), rows) && j < |types| == |spec.aggregates|
    requires spec.aggregates[j].0.Count? || types[j].Int64?
    ensures ReadyColumn(t, j, SpecGrouping(spec), rows)
  {
  }

  method FinishColumns(t: Table, order: seq<nat>, spec: AggregateSpec,
                       ghost rows: seq<Row>) returns (r: Result<seq<seq<Value>>>)
    requires forall j :: 0 <= j < |spec.aggregates| ==> ReadyColumn(t, j, SpecGrouping(spec), rows)
    requires |rows| <= I64_MAX && Arranged(t.keys, order)
    ensures r.Err? <==> exists j :: 0 <= j < |spec.aggregates| && ColumnOverflows(SpecGrouping(spec), j, t.keys, rows)
    ensures r.Ok? ==> ColumnsOf(r.value, SpecGrouping(spec), Reordered(t.keys, order), rows)
  {
    ghost var g := SpecGrouping(spec);
    var cols: seq<seq<Value>> := [];
    for j := 0 to |spec.aggregates|
      invariant |cols| == j
      invariant forall l :: 0 <= l < j ==>
        ColumnOf(cols[l], g, l, Reordered(t.keys, order), rows) && !ColumnOverflows(g, l, t.keys, rows)
    {
      var col := FinishColumn(t, order, j, spec.aggregates[j].0, g, rows);
      if col.Err? {
        return Err(col.error);
      }
      cols := cols + [col.value];
    }
    return Ok(cols);
  }

  function Singles(vs: seq<Value>): (r: seq<Row>)
    ensures |r| == |vs| && forall s :: 0 <= s < |vs| ==> r[s] == [vs[s]]
  {
    seq(|vs|, s requires 0 <= s < |vs| => [vs[s]])
  }

  lemma {:induction false} SinglesPerm(keys: seq<Value>, order: seq<nat>, ks: seq<Row>)
    requires IntKeys(keys) && Arranged(keys, order)
    requires KeysAre(ks, keys) && forall i, j :: 0 <= i < j < |ks| ==> ks[i] != ks[j]
    ensures Perm(Singles(Reordered(keys, order)), ks)
  {
    var singles := Singles(Reordered(keys, order));
    forall s, t | 0 <= s < t < |singles| ensures singles[s] != singles[t] {
      assert KeyBefore(keys[order[s]], keys[order[t]]);
    }
    forall k ensures k in singles <==> k in ks {
      if |k| == 1 && k[0] in keys {
        var i :| 0 <= i < |keys| && keys[i] == k[0];
        assert i in order;
        var s :| 0 <= s < |order| && order[s] == i;
        assert singles[s] == k;
      }
    }
    DistinctPerm(singles, ks);
  }

  lemma {:induction false} RowsByGroup(out: Batch, g: Grouping, keyCol: seq<Value>, cols: seq<seq<Value>>,
                                       rows: seq<Row>)
    requires ColumnsOf(cols, g, keyCol, rows) && out.columns == [keyCol] + cols && out.rows == |keyCol|
    ensures RowsOf(out) == FlatMap(RowOf(g, rows), Singles(keyCol))
  {
    var singles := Singles(keyCol);
    SinglesMap(RowOf(g, rows), singles);
    forall s | 0 <= s < out.rows ensures RowsOf(out)[s] == GroupRow(g, rows, singles[s]) {
      assert RowAt(out, s) == [keyCol[s]] + seq(|g.aggs|, j requires 0 <= j < |g.aggs| => Fold(g.key, g.aggs[j], [keyCol[s]], rows));
    }
  }

  lemma {:induction false} SinglesMap(f: Row -> seq<Row>, ks: seq<Row>)
    requires forall k :: |f(k)| == 1
    ensures |FlatMap(f, ks)| == |ks| && forall s :: 0 <= s < |ks| ==> FlatMap(f, ks)[s] == f(ks[s])[0]
  {
    if ks != [] {
      SinglesMap(f, ks[1..]);
    }
  }

  lemma {:induction false} OutputIsGroups(out: Batch, g: Grouping, rows: seq<Row>, keys: seq<Value>, order: seq<nat>,
                                          cols: seq<seq<Value>>)
    requires IntKeys(keys) && Arranged(keys, order) && KeysAre(Keys(g.key, rows), keys)
    requires ColumnsOf(cols, g, Reordered(keys, order), rows)
    requires out.columns == [Reordered(keys, order)] + cols && out.rows == |order|
    ensures Perm(RowsOf(out), Group(g, rows))
  {
    RowsByGroup(out, g, Reordered(keys, order), cols, rows);
    SinglesPerm(keys, order, Keys(g.key, rows));
    FlatMapPerm(RowOf(g, rows), Singles(Reordered(keys, order)), Keys(g.key, rows));
  }

  lemma {:induction false} OutputShape(out: Batch, g: Grouping, rows: seq<Row>, keys: seq<Value>, order: seq<nat>,
                                       cols: seq<seq<Value>>)
    requires Ordered(keys, order) && ColumnsOf(cols, g, Reordered(keys, order), rows)
    requires out.columns == [Reordered(keys, order)] + cols && out.rows == |order|
    ensures |out.columns| == 1 + |g.aggs|
    ensures forall c :: 0 <= c < |out.columns| ==> |out.columns[c]| == out.rows
    ensures forall s, t :: 0 <= s < t < out.rows ==> KeyBefore(out.columns[0][s], out.columns[0][t])
  {
    forall c | 0 <= c < |out.columns| ensures |out.columns[c]| == out.rows {
      if c > 0 {
        assert ColumnOf(cols[c - 1], g, c - 1, Reordered(keys, order), rows);
      }
    }
  }

  method Aggregate(b: Batch, spec: AggregateSpec) returns (r: Result<Batch>)
    requires Valid(b) && IntInputs(b.schema, spec)
    ensures r.Err? <==> !SpecTyped(b.schema, spec) || !SumsFit(SpecGrouping(spec), RowsOf(b))
    ensures r.Ok? ==> AggregateOf(r.value, b, spec)
  {
    if !SpecTyped(b.schema, spec) {
      return Err(UnsupportedError);
    }
    var types := InputTypes(b.schema, spec);
    var t := GroupRows(b, spec);
    TableKeys(t, types, b, spec);
    r := FinishTable(t, types, b, spec);
  }

  /** Orders the groups and reads their aggregates off. */
  method FinishTable(t: Table, ghost types: seq<DataType>, b: Batch, spec: AggregateSpec) returns (r: Result<Batch>)
    requires SpecTyped(b.schema, spec) && b.rows <= I64_MAX && |types| == |spec.aggregates|
    requires forall j :: 0 <= j < |types| ==> spec.aggregates[j].0.Count? || types[j].Int64?
    requires TableFor(t, types, SpecGrouping(spec), RowsOf(b)) && IntKeys(t.keys)
      && KeysAre(Keys(SpecGrouping(spec).key, RowsOf(b)), t.keys)
    ensures r.Err? <==> !SumsFit(SpecGrouping(spec), RowsOf(b))
    ensures r.Ok? ==> AggregateOf(r.value, b, spec)
  {
    var order := SortGroups(t.keys);
    FitIffNoOverflow(SpecGrouping(spec), t.keys, RowsOf(b));
    forall j | 0 <= j < |types| ensures ReadyColumn(t, j, SpecGrouping(spec), RowsOf(b)) {
      TableReady(t, types, spec, RowsOf(b), j);
    }
    var cols := FinishColumns(t, order, spec, RowsOf(b));
    if cols.Err? {
      return Err(cols.error);
    }
    var out := Batch(OutputSchema(b.schema, spec).value, [Reordered(t.keys, order)] + cols.value, |order|);
    OutputIsGroups(out, SpecGrouping(spec), RowsOf(b), t.keys, order, cols.value);
    OutputShape(out, SpecGrouping(spec), RowsOf(b), t.keys, order, cols.value);
    return Ok(out);
  }

  // ------------------------------------------------------- order insensitivity

  ghost predicate ByKey(rows: seq<Row>) {
    && (forall s :: 0 <= s < |rows| ==> |rows[s]| > 0)
    && (forall s, t :: 0 <= s < t < |rows| ==> KeyBefore(rows[s][0], rows[t][0]))
  }

  lemma {:induction false} SameBagSameOrder(xs: seq<Row>, ys: seq<Row>)
    requires Perm(xs, ys) && ByKey(xs) && ByKey(ys)
    ensures xs == ys
  {
    if xs == [] {
      PermEmpty(ys);
    } else {
      SameHead(xs, ys);
      assert xs == [xs[0]] + xs[1..] && ys == [xs[0]] + ys[1..];
      Cancel(xs[0], multiset(xs[1..]), multiset(ys[1..]));
      SameBagSameOrder(xs[1..], ys[1..]);
    }
  }

  lemma {:induction false} SameHead(xs: seq<Row>, ys: seq<Row>)
    requires Perm(xs, ys) && ByKey(xs) && ByKey(ys) && xs != []
    ensures ys != [] && xs[0] == ys[0]
  {
    assert xs[0] in multiset(ys);
    var j :| 0 <= j < |ys| && ys[j] == xs[0];
    assert ys[0] in multiset(xs);
    var i :| 0 <= i < |xs| && xs[i] == ys[0];
    assert i > 0 ==> KeyBefore(xs[0][0], ys[0][0]);
    assert j > 0 ==> KeyBefore(ys[0][0], xs[0][0]);
  }

  /** Batches with the same rows in any order aggregate to the same rows in the same order. */
  lemma {:induction false} OrderInsensitive(out: Batch, b: Batch, out': Batch, b': Batch, spec: AggregateSpec)
    requires b.schema == b'.schema && SpecTyped(b.schema, spec)
    requires AggregateOf(out, b, spec) && AggregateOf(out', b', spec)
    requires Perm(RowsOf(b), RowsOf(b'))
    ensures RowsOf(out) == RowsOf(out') && out.schema == out'.schema
  {
    GroupPerm(SpecGrouping(spec), RowsOf(b), RowsOf(b'));
    SameBagSameOrder(RowsOf(out), RowsOf(out'));
  }
}
