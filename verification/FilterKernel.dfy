/**
 The reference filter: evaluate the predicate to a mask, project, keep the rows
 whose mask is true.
 */
module FilterKernel {
  import opened Core
  import opened Bags
  import opened Plans
  import opened Execs
  import opened Batches

  type Mask = seq<Option<bool>>

  function EvaluatePredicate(b: Batch, p: Predicate): Result<Mask> {
    match p
    case Compare(c, op, lit) =>
      if c >= |b.columns| || c >= |b.schema| then Err(PlanError)
      else if b.schema[c].dtype != lit.Type() then Err(UnsupportedError)
      else Ok(seq(b.rows, i requires 0 <= i < b.rows => CompareValues(op, At(b.columns[c], i), lit.AsValue())))
    case And(l, r) =>
      var ml :- EvaluatePredicate(b, l);
      var mr :- EvaluatePredicate(b, r);
      if |ml| != |mr| then Err(ExecutionError)
      else Ok(seq(|ml|, i requires 0 <= i < |ml| => KleeneAnd(ml[i], mr[i])))
  }

  /** The positions a mask keeps, ascending. */
  function Kept(mask: Mask): (ids: seq<nat>)
    ensures forall k :: 0 <= k < |ids| ==> ids[k] < |mask|
  {
    if mask == [] then []
    else
      var n := |mask| - 1;
      Kept(mask[..n]) + if mask[n] == Some(true) then [n] else []
  }

  function TakeAll(b: Batch, cols: seq<nat>, ids: seq<nat>): (r: seq<seq<Value>>)
    ensures |r| == |cols|
    ensures forall k :: 0 <= k < |cols| ==> r[k] == Pick(ColumnAt(b, cols[k]), ids)
  {
    seq(|cols|, k requires 0 <= k < |cols| => Pick(ColumnAt(b, cols[k]), ids))
  }

  /** The rows `ids` of `b`, restricted to `cols`. */
  function Gathered(b: Batch, cols: seq<nat>, ids: seq<nat>): Batch {
    Batch(ProjectSchema(b.schema, cols), TakeAll(b, cols, ids), |ids|)
  }

  function FilterProject(b: Batch, p: Predicate, cols: seq<nat>): Result<Batch> {
    var mask :- EvaluatePredicate(b, p);
    if !ColsInRange(cols, |b.columns|) then Err(PlanError)
    else Ok(Gathered(b, cols, Kept(mask)))
  }

  // ------------------------------------------------------------- row meaning

  /** The mask is the predicate of each row. */
  lemma {:induction false} MaskMeaning(b: Batch, p: Predicate)
    requires Valid(b) && EvaluatePredicate(b, p).Ok?
    ensures var mask := EvaluatePredicate(b, p).value;
            |mask| == b.rows && forall i :: 0 <= i < b.rows ==> mask[i] == EvalPredicate(p, RowAt(b, i))
  {
    match p
    case Compare(_, _, _) =>
    case And(l, r) =>
      MaskMeaning(b, l);
      MaskMeaning(b, r);
  }

  lemma {:induction false} GatheredRows(b: Batch, cols: seq<nat>, ids: seq<nat>)
    requires ColsInRange(cols, |b.columns|)
    ensures forall k :: 0 <= k < |ids| ==> RowsOf(Gathered(b, cols, ids))[k] == Pick(RowAt(b, ids[k]), cols)
  {
    var g := Gathered(b, cols, ids);
    forall k | 0 <= k < |ids| ensures RowAt(g, k) == Pick(RowAt(b, ids[k]), cols) {
    }
  }

  /** The chosen cells of the rows `ids`. */
  function Picks(b: Batch, cols: seq<nat>, ids: seq<nat>): seq<Row> {
    seq(|ids|, k requires 0 <= k < |ids| => Pick(RowAt(b, ids[k]), cols))
  }

  lemma {:induction false} PicksSnoc(b: Batch, cols: seq<nat>, ids: seq<nat>, i: nat)
    ensures Picks(b, cols, ids + [i]) == Picks(b, cols, ids) + [Pick(RowAt(b, i), cols)]
  {
  }

  lemma {:induction false} FlatMapSnoc(f: Row -> seq<Row>, rows: seq<Row>, m: nat)
    requires m < |rows|
    ensures FlatMap(f, rows[..m + 1]) == FlatMap(f, rows[..m]) + f(rows[m])
  {
    assert rows[..m + 1] == rows[..m] + [rows[m]];
    FlatMapAppend(f, rows[..m], [rows[m]]);
    FlatMapCons(f, rows[m], []);
    assert [rows[m]] + [] == [rows[m]];
    assert f(rows[m]) + [] == f(rows[m]);
  }

  lemma {:induction false} KeptRows(b: Batch, p: Predicate, cols: seq<nat>, mask: Mask, n: nat)
    requires Valid(b) && |mask| == b.rows && n <= b.rows
    requires forall i :: 0 <= i < b.rows ==> mask[i] == EvalPredicate(p, RowAt(b, i))
    ensures FlatMap(PredicateFn(p, cols), RowsOf(b)[..n]) == Picks(b, cols, Kept(mask[..n]))
  {
    if n > 0 {
      var m := n - 1;
      KeptRows(b, p, cols, mask, m);
      FlatMapSnoc(PredicateFn(p, cols), RowsOf(b), m);
      KeptSnoc(mask, m);
      KeptRow(b, p, cols, Kept(mask[..m]), m);
    }
  }

  lemma {:induction false} KeptSnoc(mask: Mask, m: nat)
    requires m < |mask|
    ensures Kept(mask[..m + 1]) == if mask[m] == Some(true) then Kept(mask[..m]) + [m] else Kept(mask[..m])
  {
    assert mask[..m + 1][..m] == mask[..m];
  }

  /** One more row adds its picked cells if its predicate is true. */
  lemma {:induction false} KeptRow(b: Batch, p: Predicate, cols: seq<nat>, ids: seq<nat>, m: nat)
    requires m < b.rows
    ensures var more := if EvalPredicate(p, RowAt(b, m)) == Some(true) then ids + [m] else ids;
            Picks(b, cols, more) == Picks(b, cols, ids) + PredicateFn(p, cols)(RowsOf(b)[m])
  {
    PicksSnoc(b, cols, ids, m);
    assert Picks(b, cols, ids) + [] == Picks(b, cols, ids);
  }

  /** The kernel computes, in order, exactly the projected rows whose predicate is true. */
  lemma {:induction false} FilterProjectRows(b: Batch, p: Predicate, cols: seq<nat>)
    requires Valid(b) && FilterProject(b, p, cols).Ok?
    ensures RowsOf(FilterProject(b, p, cols).value) == FlatMap(PredicateFn(p, cols), RowsOf(b))
  {
    var mask := EvaluatePredicate(b, p).value;
    MaskMeaning(b, p);
    KeptRows(b, p, cols, mask, b.rows);
    assert mask[..b.rows] == mask && RowsOf(b)[..b.rows] == RowsOf(b);
    GatheredRows(b, cols, Kept(mask));
  }

  /** It succeeds exactly on predicates over existing columns of the literal's type and existing projections. */
  lemma {:induction false} FilterProjectOk(b: Batch, p: Predicate, cols: seq<nat>)
    requires Valid(b)
    ensures FilterProject(b, p, cols).Ok? <==> LeavesTyped(b.schema, p) && ColsInRange(cols, |b.columns|)
  {
    EvaluateOk(b, p);
  }

  lemma {:induction false} EvaluateOk(b: Batch, p: Predicate)
    requires Valid(b)
    ensures EvaluatePredicate(b, p).Ok? <==> LeavesTyped(b.schema, p)
  {
    match p
    case Compare(_, _, _) =>
    case And(l, r) =>
      EvaluateOk(b, l);
      EvaluateOk(b, r);
      if EvaluatePredicate(b, l).Ok? && EvaluatePredicate(b, r).Ok? {
        MaskMeaning(b, l);
        MaskMeaning(b, r);
      }
  }

  lemma {:induction false} FilterProjectValid(b: Batch, p: Predicate, cols: seq<nat>)
    requires Valid(b) && FilterProject(b, p, cols).Ok?
    ensures Valid(FilterProject(b, p, cols).value)
  {
    var mask := EvaluatePredicate(b, p).value;
    MaskMeaning(b, p);
    KeptBound(mask);
  }

  lemma {:induction false} KeptBound(mask: Mask)
    ensures |Kept(mask)| <= |mask|
  {
    if mask != [] {
      KeptBound(mask[..|mask| - 1]);
    }
  }
}
