/**
 The reference hash join: probe each left row against the prebuilt table, then
 gather the selected columns at the matching row pairs.
 */
module JoinKernel {
  import opened Core
  import opened Bags
  import opened Plans
  import opened Batches
  import opened JoinTables

  type RowPair = (nat, nat)

  // ------------------------------------------------------------ specification

  /** The build rows a probe key meets; `NULL` meets none. */
  function MatchesOf(rk: seq<Value>, v: Value): seq<nat> {
    if v.I64? then KeyRows(rk, v.i) else []
  }

  function WithLeft(i: nat, js: seq<nat>): seq<RowPair> {
    seq(|js|, t requires 0 <= t < |js| => (i, js[t]))
  }

  /** All matching pairs, by probe row and then by build row. */
  function MatchPairs(lk: seq<Value>, rk: seq<Value>): seq<RowPair> {
    PairsUpto(lk, rk, |lk|)
  }

  /** The pairs of the first `n` probe rows. */
  function PairsUpto(lk: seq<Value>, rk: seq<Value>, n: nat): seq<RowPair>
    requires n <= |lk|
  {
    if n == 0 then [] else PairsUpto(lk, rk, n - 1) + WithLeft(n - 1, MatchesOf(rk, lk[n - 1]))
  }

  function Lefts(pairs: seq<RowPair>): seq<nat> {
    seq(|pairs|, t requires 0 <= t < |pairs| => pairs[t].0)
  }

  function Rights(pairs: seq<RowPair>): seq<nat> {
    seq(|pairs|, t requires 0 <= t < |pairs| => pairs[t].1)
  }

  /** Column `index` of `left ++ right`, gathered at the row pairs. */
  function JoinColumn(l: Batch, r: Batch, index: nat, pairs: seq<RowPair>): seq<Value> {
    if index < |l.columns| then Pick(l.columns[index], Lefts(pairs))
    else Pick(ColumnAt(r, index - |l.columns|), Rights(pairs))
  }

  function JoinColumns(l: Batch, r: Batch, sel: seq<nat>, pairs: seq<RowPair>): seq<seq<Value>> {
    seq(|sel|, k requires 0 <= k < |sel| => JoinColumn(l, r, sel[k], pairs))
  }

  function JoinBatch(l: Batch, r: Batch, sel: seq<nat>, pairs: seq<RowPair>): Batch {
    Batch(ProjectSchema(l.schema + r.schema, sel), JoinColumns(l, r, sel, pairs), |pairs|)
  }

  function Selected(projection: Option<seq<nat>>, l: Batch, r: Batch): seq<nat> {
    if projection.Some? then projection.value else Upto(|l.columns| + |r.columns|)
  }

  // ------------------------------------------------------------- what it means

  ghost predicate Before(p: RowPair, q: RowPair) {
    p.0 < q.0 || (p.0 == q.0 && p.1 < q.1)
  }

  /** Exactly the pairs with equal non-`NULL` keys, each once, in nested-loop order. */
  lemma {:induction false} MatchPairsMeaning(lk: seq<Value>, rk: seq<Value>)
    ensures forall i: nat, j: nat :: (i, j) in MatchPairs(lk, rk) <==>
      i < |lk| && j < |rk| && lk[i].I64? && rk[j] == lk[i]
    ensures forall s, t :: 0 <= s < t < |MatchPairs(lk, rk)| ==> Before(MatchPairs(lk, rk)[s], MatchPairs(lk, rk)[t])
  {
    PairsUptoMeaning(lk, rk, |lk|);
  }

  lemma {:induction false} PairsUptoMeaning(lk: seq<Value>, rk: seq<Value>, n: nat)
    requires n <= |lk|
    ensures forall i: nat, j: nat :: (i, j) in PairsUpto(lk, rk, n) <==>
      i < n && j < |rk| && lk[i].I64? && rk[j] == lk[i]
    ensures forall s, t :: 0 <= s < t < |PairsUpto(lk, rk, n)| ==>
      Before(PairsUpto(lk, rk, n)[s], PairsUpto(lk, rk, n)[t])
  {
    if n > 0 {
      var m := n - 1;
      var (front, js) := (PairsUpto(lk, rk, m), MatchesOf(rk, lk[m]));
      PairsUptoMeaning(lk, rk, m);
      if lk[m].I64? {
        KeyRowsMeaning(rk, lk[m].i);
      }
      WithLeftMember(m, js);
      OrderedAppend(front, WithLeft(m, js), m);
    }
  }

  lemma {:induction false} WithLeftMember(n: nat, js: seq<nat>)
    ensures forall i: nat, j: nat :: (i, j) in WithLeft(n, js) <==> i == n && j in js
  {
    forall j: nat | j in js ensures (n, j) in WithLeft(n, js) {
      var t :| 0 <= t < |js| && js[t] == j;
      assert WithLeft(n, js)[t] == (n, j);
    }
  }

  lemma {:induction false} OrderedAppend(front: seq<RowPair>, back: seq<RowPair>, n: nat)
    requires forall s, t :: 0 <= s < t < |front| ==> Before(front[s], front[t])
    requires forall s, t :: 0 <= s < t < |back| ==> Before(back[s], back[t])
    requires forall i: nat, j: nat :: (i, j) in front ==> i < n
    requires forall t :: 0 <= t < |back| ==> back[t].0 == n
    ensures forall s, t :: 0 <= s < t < |front + back| ==> Before((front + back)[s], (front + back)[t])
  {
    forall s, t | 0 <= s < t < |front + back| ensures Before((front + back)[s], (front + back)[t]) {
      if s < |front| <= t {
        assert (front[s].0, front[s].1) in front;
      }
    }
  }

  function PairRowOf(l: Batch, r: Batch, sel: seq<nat>): RowPair -> seq<Row> {
    (p: RowPair) => [Pick(RowAt(l, p.0) + RowAt(r, p.1), sel)]
  }

  lemma {:induction false} JoinBatchRow(l: Batch, r: Batch, sel: seq<nat>, pairs: seq<RowPair>, t: nat)
    requires ColsInRange(sel, |l.columns| + |r.columns|) && t < |pairs|
    ensures RowsOf(JoinBatch(l, r, sel, pairs))[t] == Pick(RowAt(l, pairs[t].0) + RowAt(r, pairs[t].1), sel)
  {
    var b := JoinBatch(l, r, sel, pairs);
    assert RowAt(b, t) == Pick(RowAt(l, pairs[t].0) + RowAt(r, pairs[t].1), sel);
  }

  lemma {:induction false} FlatMapSingles(f: RowPair -> seq<Row>, pairs: seq<RowPair>)
    requires forall p :: |f(p)| == 1
    ensures |FlatMap(f, pairs)| == |pairs|
    ensures forall t :: 0 <= t < |pairs| ==> FlatMap(f, pairs)[t] == f(pairs[t])[0]
  {
    if pairs != [] {
      FlatMapSingles(f, pairs[1..]);
    }
  }

  /** The rows of a gathered join, for any arrangement of the pairs. */
  lemma {:induction false} JoinBatchRows(l: Batch, r: Batch, sel: seq<nat>, pairs: seq<RowPair>)
    requires ColsInRange(sel, |l.columns| + |r.columns|)
    ensures RowsOf(JoinBatch(l, r, sel, pairs)) == FlatMap(PairRowOf(l, r, sel), pairs)
  {
    FlatMapSingles(PairRowOf(l, r, sel), pairs);
    forall t | 0 <= t < |pairs| ensures RowsOf(JoinBatch(l, r, sel, pairs))[t] == FlatMap(PairRowOf(l, r, sel), pairs)[t] {
      JoinBatchRow(l, r, sel, pairs, t);
    }
  }

  /** Another arrangement of the same pairs is another arrangement of the same rows. */
  lemma {:induction false} ArrangementPerm(l: Batch, r: Batch, sel: seq<nat>, pairs: seq<RowPair>,
                                           arranged: seq<RowPair>)
    requires ColsInRange(sel, |l.columns| + |r.columns|) && Perm(arranged, pairs)
    ensures Perm(RowsOf(JoinBatch(l, r, sel, arranged)), RowsOf(JoinBatch(l, r, sel, pairs)))
  {
    JoinBatchRows(l, r, sel, pairs);
    JoinBatchRows(l, r, sel, arranged);
    FlatMapPerm(PairRowOf(l, r, sel), arranged, pairs);
  }

  lemma {:induction false} WithLeftSnoc(i: nat, js: seq<nat>, j: nat)
    ensures WithLeft(i, js + [j]) == WithLeft(i, js) + [(i, j)]
  {
  }

  lemma {:induction false} MatchIffKeys(l: Row, r: Row, lk: nat, rk: nat)
    ensures Matches(OnKeys(lk, rk), l, r) <==> At(l, lk) == At(r, rk) && !At(l, lk).Null?
  {
    assert OnKeys(lk, rk).on[0] == (Column(lk), Column(rk));
    assert Eval(Column(lk), l) == At(l, lk) && Eval(Column(rk), r) == At(r, rk);
  }

  /** `m` joins the rows whose keys match, and what it makes of rows `i` and `j` is `f((i, j))`. */
  ghost predicate JoinsOn(m: (Row, Row) -> seq<Row>, f: RowPair -> seq<Row>, ls: seq<Row>, rs: seq<Row>,
                          lk: seq<Value>, rk: seq<Value>) {
    && |ls| == |lk| && |rs| == |rk|
    && forall i: nat, j: nat :: i < |ls| && j < |rs| ==>
      m(ls[i], rs[j]) == if lk[i].I64? && rk[j] == lk[i] then f((i, j)) else []
  }

  /** One probe row against the first `n` build rows. */
  lemma {:induction false} ProbeRow(m: (Row, Row) -> seq<Row>, f: RowPair -> seq<Row>, ls: seq<Row>, rs: seq<Row>,
                                    lk: seq<Value>, rk: seq<Value>, i: nat, n: nat)
    requires JoinsOn(m, f, ls, rs, lk, rk) && i < |ls| && n <= |rs|
    ensures PairRow(m, ls[i], rs[..n]) == FlatMap(f, WithLeft(i, MatchesOf(rk[..n], lk[i])))
  {
    if n == 0 {
      assert rk[..0] == [] && rs[..0] == [];
      assert WithLeft(i, MatchesOf([], lk[i])) == [];
    } else {
      var j := n - 1;
      ProbeRow(m, f, ls, rs, lk, rk, i, j);
      assert rs[..n] == rs[..j] + [rs[j]];
      PairRowAppend(m, ls[i], rs[..j], [rs[j]]);
      PairRowOne(m, ls[i], rs[j]);
      ProbeStep(rk, lk[i], i, j, f);
    }
  }

  lemma {:induction false} ProbeStep(rk: seq<Value>, v: Value, i: nat, j: nat, f: RowPair -> seq<Row>)
    requires j < |rk|
    ensures FlatMap(f, WithLeft(i, MatchesOf(rk[..j + 1], v)))
         == FlatMap(f, WithLeft(i, MatchesOf(rk[..j], v))) + if v.I64? && rk[j] == v then f((i, j)) else []
  {
    if v.I64? {
      KeyRowsSnoc(rk, j, v.i);
      if rk[j] == v {
        WithLeftSnoc(i, KeyRows(rk[..j], v.i), j);
        FlatMapAppend(f, WithLeft(i, KeyRows(rk[..j], v.i)), [(i, j)]);
        FlatMapOne(f, (i, j));
      } else {
        assert KeyRows(rk[..j], v.i) + [] == KeyRows(rk[..j], v.i);
      }
    }
    assert FlatMap(f, WithLeft(i, MatchesOf(rk[..j], v))) + [] == FlatMap(f, WithLeft(i, MatchesOf(rk[..j], v)));
  }

  lemma {:induction false} FlatMapOne(f: RowPair -> seq<Row>, p: RowPair)
    ensures FlatMap(f, [p]) == f(p)
  {
    assert [p][1..] == [];
    assert f(p) + FlatMap(f, []) == f(p);
  }

  lemma {:induction false} PairSnoc(m: (Row, Row) -> seq<Row>, xs: seq<Row>, i: nat, ys: seq<Row>)
    requires i < |xs|
    ensures Pair(m, xs[..i + 1], ys) == Pair(m, xs[..i], ys) + PairRow(m, xs[i], ys)
  {
    assert xs[..i + 1] == xs[..i] + [xs[i]];
    PairAppendLeft(m, xs[..i], [xs[i]], ys);
    assert [xs[i]][1..] == [];
    assert PairRow(m, xs[i], ys) + Pair(m, [], ys) == PairRow(m, xs[i], ys);
  }

  lemma {:induction false} ProbeRows(m: (Row, Row) -> seq<Row>, f: RowPair -> seq<Row>, ls: seq<Row>, rs: seq<Row>,
                                     lk: seq<Value>, rk: seq<Value>, n: nat)
    requires JoinsOn(m, f, ls, rs, lk, rk) && n <= |ls|
    ensures Pair(m, ls[..n], rs) == FlatMap(f, PairsUpto(lk, rk, n))
  {
    if n > 0 {
      var i := n - 1;
      ProbeRows(m, f, ls, rs, lk, rk, i);
      ProbeRow(m, f, ls, rs, lk, rk, i, |rs|);
      assert rs[..|rs|] == rs && rk[..|rs|] == rk;
      PairSnoc(m, ls, i, rs);
      PairsUptoSnoc(lk, rk, i, f);
    }
  }

  lemma {:induction false} PairsUptoSnoc(lk: seq<Value>, rk: seq<Value>, i: nat, f: RowPair -> seq<Row>)
    requires i < |lk|
    ensures FlatMap(f, PairsUpto(lk, rk, i + 1)) == FlatMap(f, PairsUpto(lk, rk, i)) + FlatMap(f, WithLeft(i, MatchesOf(rk, lk[i])))
  {
    FlatMapAppend(f, PairsUpto(lk, rk, i), WithLeft(i, MatchesOf(rk, lk[i])));
  }

  /** Gathering at the matching pairs is the nested-loop join of the rows, in its order. */
  lemma {:induction false} ProbeIsJoin(l: Batch, r: Batch, lk: nat, rk: nat, sel: seq<nat>)
    requires Valid(l) && Valid(r) && lk < |l.columns| && rk < |r.columns| && l.schema[lk].dtype == Int64
    requires ColsInRange(sel, |l.columns| + |r.columns|)
    ensures RowsOf(JoinBatch(l, r, sel, MatchPairs(l.columns[lk], r.columns[rk])))
         == Pair(JoinFn(OnKeys(lk, rk), Some(sel)), RowsOf(l), RowsOf(r))
  {
    BatchesJoinOn(l, r, lk, rk, sel);
    ProbeRows(JoinFn(OnKeys(lk, rk), Some(sel)), PairRowOf(l, r, sel), RowsOf(l), RowsOf(r), l.columns[lk], r.columns[rk], l.rows);
    assert RowsOf(l)[..l.rows] == RowsOf(l);
    JoinBatchRows(l, r, sel, MatchPairs(l.columns[lk], r.columns[rk]));
  }

  lemma {:induction false} BatchesJoinOn(l: Batch, r: Batch, lk: nat, rk: nat, sel: seq<nat>)
    requires Valid(l) && Valid(r) && lk < |l.columns| && rk < |r.columns| && l.schema[lk].dtype == Int64
    ensures JoinsOn(JoinFn(OnKeys(lk, rk), Some(sel)), PairRowOf(l, r, sel), RowsOf(l), RowsOf(r), l.columns[lk], r.columns[rk])
  {
    var (m, f) := (JoinFn(OnKeys(lk, rk), Some(sel)), PairRowOf(l, r, sel));
    forall i: nat, j: nat | i < l.rows && j < r.rows
      ensures m(RowsOf(l)[i], RowsOf(r)[j]) == if l.columns[lk][i].I64?
        && r.columns[rk][j] == l.columns[lk][i] then f((i, j)) else []
    {
      MatchIffKeys(RowAt(l, i), RowAt(r, j), lk, rk);
      assert HasType(l.columns[lk][i], Int64);
    }
  }

  // --------------------------------------------------------------- the kernel

  /** Does some probe row past 32 bits have a match? */
  ghost predicate ProbeTooBig(lk: seq<Value>, rk: seq<Value>) {
    exists i :: MatchPast32(lk, rk, i)
  }

  ghost predicate MatchPast32(lk: seq<Value>, rk: seq<Value>, i: int) {
    U32_MAX < i < |lk| && MatchesOf(rk, lk[i]) != []
  }

  /** Does every lookup return the rows of its key? */
  ghost predicate Answers(t: JoinTable, rk: seq<Value>) {
    t.InBounds() && forall v: Value :: Found(t, v) == MatchesOf(rk, v)
  }

  function Repeat(n: nat, i: nat): seq<nat> {
    seq(n, t => i)
  }

  /** Table lookup, or nothing for a `NULL` key. */
  function Found(t: JoinTable, v: Value): seq<nat>
    requires t.InBounds()
  {
    if v.I64? then t.Matches(v.i) else []
  }

  /** The index vectors of the matching pairs. */
  method ProbeTable(keys: seq<Value>, table: JoinTable, ghost rk: seq<Value>) returns (r: Result<(seq<nat>, seq<nat>)>)
    requires Answers(table, rk)
    ensures r.Err? <==> ProbeTooBig(keys, rk)
    ensures r.Ok? ==> r.value == (Lefts(MatchPairs(keys, rk)), Rights(MatchPairs(keys, rk)))
  {
    var leftIdx: seq<nat> := [];
    var rightIdx: seq<nat> := [];
    for i: nat := 0 to |keys|
      invariant leftIdx == Lefts(PairsUpto(keys, rk, i)) && rightIdx == Rights(PairsUpto(keys, rk, i))
      invariant forall t :: MatchPast32(keys, rk, t) ==> t >= i
    {
      var matches := Found(table, keys[i]);
      assert matches == MatchesOf(rk, keys[i]);
      if matches != [] && i > U32_MAX {
        assert MatchPast32(keys, rk, i);
        return Err(ExecutionError);
      }
      AppendMatches(keys, rk, i);
      leftIdx := leftIdx + Repeat(|matches|, i);
      rightIdx := rightIdx + matches;
    }
    return Ok((leftIdx, rightIdx));
  }

  lemma {:induction false} AppendMatches(keys: seq<Value>, rk: seq<Value>, i: nat)
    requires i < |keys|
    ensures Lefts(PairsUpto(keys, rk, i + 1)) == Lefts(PairsUpto(keys, rk, i)) + Repeat(|MatchesOf(rk, keys[i])|, i)
    ensures Rights(PairsUpto(keys, rk, i + 1)) == Rights(PairsUpto(keys, rk, i)) + MatchesOf(rk, keys[i])
  {
  }

  /** Does the probe report an error? */
  ghost predicate ProbeFails(l: Batch, lk: nat, r: Batch, rk: nat, projection: Option<seq<nat>>)
    requires rk < |r.columns|
  {
    || lk >= |l.columns| || lk >= |l.schema| || l.schema[lk].dtype != Int64
    || ProbeTooBig(l.columns[lk], r.columns[rk])
    || !ColsInRange(Selected(projection, l, r), |l.columns| + |r.columns|)
    || Selected(projection, l, r) == []
  }

  /** Probes `left` against the table of `right`'s key column and gathers the selected columns. */
  method HashJoinProbe(left: Batch, leftKey: nat, right: Batch, table: JoinTable, projection: Option<seq<nat>>,
                       ghost rightKey: nat)
    returns (r: Result<Batch>)
    requires Valid(left) && Valid(right) && rightKey < |right.columns| && TableFor(table, right.columns[rightKey])
    ensures r.Err? <==> ProbeFails(left, leftKey, right, rightKey, projection)
    ensures r.Ok? ==>
      r.value == JoinBatch(left, right, Selected(projection, left, right),
                           MatchPairs(left.columns[leftKey], right.columns[rightKey]))
  {
    if leftKey >= |left.columns| {
      return Err(PlanError);
    }
    if left.schema[leftKey].dtype != Int64 {
      return Err(UnsupportedError);
    }
    var probed := ProbeTable(left.columns[leftKey], table, right.columns[rightKey]);
    if probed.Err? {
      return Err(probed.error);
    }
    ghost var pairs := MatchPairs(left.columns[leftKey], right.columns[rightKey]);
    var selected := Selected(projection, left, right);
    var columns := GatherSelected(left, right, selected, probed.value.0, probed.value.1, pairs);
    if columns.Err? || selected == [] {
      // A batch without columns has no length.
      return Err(PlanError);
    }
    return Ok(Batch(ProjectSchema(left.schema + right.schema, selected), columns.value, |columns.value[0]|));
  }

  /** Takes each selected column at its side's row numbers. */
  method GatherSelected(left: Batch, right: Batch, selected: seq<nat>, leftIdx: seq<nat>, rightIdx: seq<nat>,
                        ghost pairs: seq<RowPair>)
    returns (r: Result<seq<seq<Value>>>)
    requires leftIdx == Lefts(pairs) && rightIdx == Rights(pairs)
    ensures r.Err? <==> !ColsInRange(selected, |left.columns| + |right.columns|)
    ensures r.Ok? ==> r.value == JoinColumns(left, right, selected, pairs)
    ensures r.Ok? && selected != [] ==> |r.value[0]| == |pairs|
  {
    var width := |left.columns|;
    var columns: seq<seq<Value>> := [];
    for k := 0 to |selected|
      invariant |columns| == k
      invariant forall t :: 0 <= t < k ==> selected[t] < width + |right.columns|
      invariant forall t :: 0 <= t < k ==> columns[t] == JoinColumn(left, right, selected[t], pairs)
    {
      var index := selected[k];
      if index >= width + |right.columns| {
        return Err(PlanError);
      }
      columns := columns + [if index < width then Pick(left.columns[index], leftIdx) else Pick(right.columns[index - width], rightIdx)];
    }
    assert columns == JoinColumns(left, right, selected, pairs);
    return Ok(columns);
  }
}
