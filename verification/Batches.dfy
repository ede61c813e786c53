/**
 Record batches: named columns of equal length, and the rows they spell.
 */
module Batches {
  import opened Core
  import opened Bags

  datatype Batch = Batch(schema: Schema, columns: seq<seq<Value>>, rows: nat)

  /** Columns match the schema in number and type, and each other in length. */
  ghost predicate Valid(b: Batch) {
    && |b.columns| == |b.schema|
    && b.rows <= I64_MAX
    && (forall c :: 0 <= c < |b.columns| ==> |b.columns[c]| == b.rows)
    && (forall c, i :: 0 <= c < |b.columns| && 0 <= i < b.rows ==> HasType(b.columns[c][i], b.schema[c].dtype))
  }

  function ColumnAt(b: Batch, c: nat): seq<Value> {
    if c < |b.columns| then b.columns[c] else []
  }

  function RowAt(b: Batch, i: nat): (r: Row)
    ensures |r| == |b.columns|
    ensures forall c :: 0 <= c < |b.columns| ==> r[c] == At(b.columns[c], i)
  {
    seq(|b.columns|, c requires 0 <= c < |b.columns| => At(b.columns[c], i))
  }

  function RowsOf(b: Batch): (rs: seq<Row>)
    ensures |rs| == b.rows
    ensures forall i :: 0 <= i < b.rows ==> rs[i] == RowAt(b, i)
  {
    seq(b.rows, i requires 0 <= i < b.rows => RowAt(b, i))
  }

  /** A batch needs at least one column to know its length. */
  function TryNew(schema: Schema, columns: seq<seq<Value>>): Result<Batch> {
    if columns == [] || |columns| != |schema| then Err(PlanError)
    else if exists c :: 0 <= c < |columns| && |columns[c]| != |columns[0]| then Err(PlanError)
    else Ok(Batch(schema, columns, |columns[0]|))
  }

  lemma {:induction false} SameRows(a: Batch, b: Batch)
    requires a.rows == b.rows && |a.columns| == |b.columns|
    requires forall c :: 0 <= c < |a.columns| ==> a.columns[c] == b.columns[c]
    ensures RowsOf(a) == RowsOf(b)
  {
    assert a.columns == b.columns;
  }

  // ------------------------------------------------------------ many batches

  function AllRows(bs: seq<Batch>): seq<Row> {
    FlatMap(RowsOf, bs)
  }

  function TotalRows(bs: seq<Batch>): nat {
    if bs == [] then 0 else bs[0].rows + TotalRows(bs[1..])
  }

  function ConcatColumn(bs: seq<Batch>, c: nat): seq<Value> {
    if bs == [] then [] else ColumnAt(bs[0], c) + ConcatColumn(bs[1..], c)
  }

  /** One batch holding the rows of all, in order. */
  function Concat(schema: Schema, bs: seq<Batch>): Batch {
    Batch(schema, seq(|schema|, c requires 0 <= c < |schema| => ConcatColumn(bs, c)), TotalRows(bs))
  }

  ghost predicate AllOf(s: Schema, bs: seq<Batch>) {
    forall i :: 0 <= i < |bs| ==> Valid(bs[i]) && bs[i].schema == s
  }

  lemma {:induction false} ConcatColumnShape(s: Schema, bs: seq<Batch>, c: nat)
    requires AllOf(s, bs) && c < |s|
    ensures |ConcatColumn(bs, c)| == TotalRows(bs) == |AllRows(bs)|
    ensures forall i :: 0 <= i < TotalRows(bs) ==> HasType(ConcatColumn(bs, c)[i], s[c].dtype)
    ensures forall i :: 0 <= i < TotalRows(bs) ==>
      |AllRows(bs)[i]| == |s| && AllRows(bs)[i][c] == ConcatColumn(bs, c)[i]
  {
    if bs != [] {
      ConcatColumnShape(s, bs[1..], c);
      assert ColumnAt(bs[0], c) == bs[0].columns[c];
    }
  }

  lemma {:induction false} ConcatValid(s: Schema, bs: seq<Batch>)
    requires AllOf(s, bs) && TotalRows(bs) <= I64_MAX
    ensures Valid(Concat(s, bs))
  {
    forall c | 0 <= c < |s|
      ensures |ConcatColumn(bs, c)| == TotalRows(bs)
      ensures forall i :: 0 <= i < TotalRows(bs) ==> HasType(ConcatColumn(bs, c)[i], s[c].dtype)
    {
      ConcatColumnShape(s, bs, c);
    }
  }

  lemma {:induction false} ConcatRows(s: Schema, bs: seq<Batch>)
    requires AllOf(s, bs) && s != []
    ensures RowsOf(Concat(s, bs)) == AllRows(bs)
  {
    ConcatColumnShape(s, bs, 0);
    forall i | 0 <= i < TotalRows(bs) ensures RowAt(Concat(s, bs), i) == AllRows(bs)[i] {
      forall c | 0 <= c < |s| ensures RowAt(Concat(s, bs), i)[c] == AllRows(bs)[i][c] {
        ConcatColumnShape(s, bs, c);
      }
    }
  }

  /** The rows of one more batch. */
  lemma {:induction false} AllRowsSnoc(bs: seq<Batch>, b: Batch)
    ensures AllRows(bs + [b]) == AllRows(bs) + RowsOf(b)
  {
    FlatMapAppend(RowsOf, bs, [b]);
    assert [b][1..] == [];
    assert RowsOf(b) + FlatMap(RowsOf, []) == RowsOf(b);
  }

  lemma {:induction false} AllRowsPerm(a: seq<Batch>, b: seq<Batch>)
    requires Perm(a, b)
    ensures Perm(AllRows(a), AllRows(b)) && TotalRows(a) == TotalRows(b)
  {
    FlatMapPerm(RowsOf, a, b);
    AllRowsLength(a);
    AllRowsLength(b);
    assert |multiset(AllRows(a))| == |multiset(AllRows(b))|;
  }

  lemma {:induction false} AllRowsLength(bs: seq<Batch>)
    ensures |AllRows(bs)| == TotalRows(bs)
  {
    if bs != [] {
      AllRowsLength(bs[1..]);
    }
  }
}
