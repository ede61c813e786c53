/**
 The device side of a hash join: each input sends its key, the selected columns
 a device can hold and, when another column is selected, row ids. The device may
 return the matches in any order; the host reassembles the selected columns.
 */
module JoinOperator {
  import opened Core
  import opened Bags
  import opened Plans
  import opened Batches
  import opened JoinKernel
  import opened FilterOperator

  // ------------------------------------------------------------ planning a side

  /** What the host needs of a side's cut to rebuild the columns `cols`. */
  ghost predicate Serves(plan: SidePlan, key: nat, cols: seq<nat>) {
    && plan.deviceCols != [] && plan.deviceCols[0] == key
    && (forall k :: 0 <= k < |cols| ==> cols[k] in plan.deviceCols || plan.rowIds)
    && (forall c :: c in plan.deviceCols ==> c == key || c in cols)
  }

  /** The key first, then each eligible one of the first `n` selected columns once. */
  function SideCols(s: Schema, key: nat, cols: seq<nat>, n: nat): seq<nat>
    requires ColsInRange(cols, |s|) && n <= |cols|
  {
    if n == 0 then [key]
    else if Ineligible(s, cols, n - 1) then SideCols(s, key, cols, n - 1)
    else PushUnique(SideCols(s, key, cols, n - 1), cols[n - 1])
  }

  predicate Ineligible(s: Schema, cols: seq<nat>, k: int)
    requires ColsInRange(cols, |s|)
  {
    0 <= k < |cols| && !DeviceEligible(s[cols[k]].dtype)
  }

  function SideOf(s: Schema, key: nat, cols: seq<nat>): SidePlan
    requires ColsInRange(cols, |s|)
  {
    SidePlan(SideCols(s, key, cols, |cols|), exists k :: 0 <= k < |cols| && Ineligible(s, cols, k))
  }

  /** What travels: the key first, every eligible selected column, nothing else and nothing twice. */
  ghost predicate TravelsOnce(travelling: seq<nat>, s: Schema, key: nat, cols: seq<nat>, n: nat)
    requires ColsInRange(cols, |s|) && n <= |cols|
  {
    && travelling != [] && travelling[0] == key
    && (forall i, k :: 0 <= i < k < |travelling| ==> travelling[i] != travelling[k])
    && (forall c :: c in travelling <==> c == key || exists k :: 0 <= k < n && cols[k] == c && !Ineligible(s, cols, k))
  }

  lemma {:induction false} SideColsOnce(s: Schema, key: nat, cols: seq<nat>, n: nat)
    requires ColsInRange(cols, |s|) && n <= |cols|
    ensures TravelsOnce(SideCols(s, key, cols, n), s, key, cols, n)
  {
    if n > 0 {
      SideColsOnce(s, key, cols, n - 1);
    }
  }

  /** Decides which columns of one input travel. */
  method PlanSide(s: Schema, key: nat, cols: seq<nat>) returns (r: Result<SidePlan>)
    ensures r.Ok? <==> ColsInRange(cols, |s|)
    ensures r.Ok? ==> r.value == SideOf(s, key, cols)
    ensures r.Ok? ==> TravelsOnce(r.value.deviceCols, s, key, cols, |cols|)
    ensures r.Ok? ==> (r.value.rowIds <==> exists k :: 0 <= k < |cols| && Ineligible(s, cols, k))
  {
    if !ColsInRange(cols, |s|) {
      return Err(PlanError);
    }
    var deviceCols := [key];
    var rowIds := false;
    for k := 0 to |cols|
      invariant deviceCols == SideCols(s, key, cols, k)
      invariant rowIds <==> exists t :: 0 <= t < k && Ineligible(s, cols, t)
    {
      if Ineligible(s, cols, k) {
        rowIds := true;
      } else {
        deviceCols := PushUnique(deviceCols, cols[k]);
      }
    }
    SideColsOnce(s, key, cols, |cols|);
    return Ok(SidePlan(deviceCols, rowIds));
  }

  lemma {:induction false} SideServes(s: Schema, key: nat, cols: seq<nat>)
    requires ColsInRange(cols, |s|)
    ensures Serves(SideOf(s, key, cols), key, cols)
  {
    SideColsMeaning(s, key, cols, |cols|);
    forall k | 0 <= k < |cols| ensures cols[k] in SideOf(s, key, cols).deviceCols || SideOf(s, key, cols).rowIds {
      assert Ineligible(s, cols, k) || cols[k] in SideCols(s, key, cols, |cols|);
    }
  }

  lemma {:induction false} SideColsMeaning(s: Schema, key: nat, cols: seq<nat>, n: nat)
    requires ColsInRange(cols, |s|) && n <= |cols|
    ensures SideCols(s, key, cols, n) != [] && SideCols(s, key, cols, n)[0] == key
    ensures forall k :: 0 <= k < n ==> Ineligible(s, cols, k) || cols[k] in SideCols(s, key, cols, n)
    ensures forall c :: c in SideCols(s, key, cols, n) ==> c == key || c in cols
  {
    if n > 0 {
      SideColsMeaning(s, key, cols, n - 1);
    }
  }

  // ---------------------------------------------------------------- the device

  /** A column of a side's sub-batch, gathered at `ids`, gives back the original column at `ids`. */
  lemma {:induction false} SideColumn(plan: SidePlan, b: Batch, sub: Batch, ids: seq<nat>, c: nat)
    requires Valid(b) && plan.Width() > 0 && plan.SubBatch(b) == Ok(sub) && c < |b.columns|
    requires forall t :: 0 <= t < |ids| ==> ids[t] < b.rows
    ensures |sub.columns| == plan.Width() && |sub.schema| == plan.Width()
    ensures plan.Position(c).Some? ==> Pick(sub.columns[plan.Position(c).value], ids) == Pick(b.columns[c], ids)
    ensures plan.rowIds ==> AsIds(Pick(sub.columns[|plan.deviceCols|], ids)) == ids
  {
    SubBatchShape(plan, b);
    if plan.rowIds {
      var col := Pick(RowIds(b.rows), ids);
      forall t | 0 <= t < |ids| ensures col[t] == I64(ids[t]) {
      }
      assert AsIds(col) == ids;
    }
  }

  /** The device's join of two sub-batches: all their columns, at the matches in the device's order. */
  function DeviceJoin(l: Batch, r: Batch, arranged: seq<RowPair>): Batch {
    JoinBatch(l, r, Upto(|l.columns| + |r.columns|), arranged)
  }

  lemma {:induction false} DeviceJoinColumn(l: Batch, r: Batch, arranged: seq<RowPair>, k: nat)
    requires k < |l.columns| + |r.columns|
    ensures |DeviceJoin(l, r, arranged).columns| == |l.columns| + |r.columns|
    ensures DeviceJoin(l, r, arranged).columns[k] == JoinColumn(l, r, k, arranged)
  {
    assert Upto(|l.columns| + |r.columns|)[k] == k;
  }

  ghost predicate PairsInRange(pairs: seq<RowPair>, n: nat, m: nat) {
    forall t :: 0 <= t < |pairs| ==> pairs[t].0 < n && pairs[t].1 < m
  }

  lemma {:induction false} ArrangedInRange(lk: seq<Value>, rk: seq<Value>, arranged: seq<RowPair>)
    requires Perm(arranged, MatchPairs(lk, rk))
    ensures PairsInRange(arranged, |lk|, |rk|)
  {
    MatchPairsMeaning(lk, rk);
    forall t | 0 <= t < |arranged| ensures arranged[t].0 < |lk| && arranged[t].1 < |rk| {
      assert arranged[t] in multiset(arranged);
      assert (arranged[t].0, arranged[t].1) in MatchPairs(lk, rk);
    }
  }

  /** Both inputs as cut for the device. */
  datatype JoinCut = JoinCut(leftPlan: SidePlan, leftSub: Batch, rightPlan: SidePlan, rightSub: Batch)

  /** The selected columns of the left input, in order. */
  function LeftOf(selected: seq<nat>, width: nat): seq<nat> {
    if selected == [] then []
    else if selected[0] < width then [selected[0]] + LeftOf(selected[1..], width) else LeftOf(selected[1..], width)
  }

  /** The selected columns of the right input, in order and renumbered. */
  function RightOf(selected: seq<nat>, width: nat): seq<nat> {
    if selected == [] then []
    else if selected[0] >= width then [selected[0] - width] + RightOf(selected[1..], width) else RightOf(selected[1..], width)
  }

  lemma {:induction false} SplitMeaning(selected: seq<nat>, width: nat)
    ensures forall c: nat :: c in LeftOf(selected, width) <==> c < width && c in selected
    ensures forall c: nat :: c in RightOf(selected, width) <==> c + width in selected
  {
    if selected != [] {
      SplitMeaning(selected[1..], width);
    }
  }

  ghost predicate CutsJoin(cut: JoinCut, l: Batch, lk: nat, r: Batch, rk: nat, selected: seq<nat>) {
    && cut.leftPlan.SubBatch(l) == Ok(cut.leftSub) && cut.rightPlan.SubBatch(r) == Ok(cut.rightSub)
    && Serves(cut.leftPlan, lk, LeftOf(selected, |l.columns|))
    && Serves(cut.rightPlan, rk, RightOf(selected, |l.columns|))
  }

  /** Column `c` of one side: the device's own, or a host gather at the device's row ids. */
  function SideHostColumn(plan: SidePlan, b: Batch, out: Batch, offset: nat, c: nat): Result<seq<Value>> {
    match plan.Position(c)
    case Some(pos) => Ok(ColumnAt(out, offset + pos))
    case None =>
      if plan.rowIds then Ok(Pick(ColumnAt(b, c), AsIds(ColumnAt(out, offset + |plan.deviceCols|))))
      else Err(ExecutionError)
  }

  function HostColumn(cut: JoinCut, l: Batch, r: Batch, out: Batch, index: nat): Result<seq<Value>> {
    if index < |l.columns| then SideHostColumn(cut.leftPlan, l, out, 0, index)
    else SideHostColumn(cut.rightPlan, r, out, cut.leftPlan.Width(), index - |l.columns|)
  }

  /** `out` holds the sub-batch's columns from `offset` on, gathered at `ids`. */
  ghost predicate HoldsSide(out: Batch, offset: nat, sub: Batch, ids: seq<nat>) {
    forall k: nat :: k < |sub.columns| ==> ColumnAt(out, offset + k) == Pick(sub.columns[k], ids)
  }

  lemma {:induction false} SideRebuilt(plan: SidePlan, b: Batch, sub: Batch, out: Batch, offset: nat, ids: seq<nat>,
                                       c: nat)
    requires Valid(b) && plan.Width() > 0 && plan.SubBatch(b) == Ok(sub) && c < |b.columns|
    requires forall t :: 0 <= t < |ids| ==> ids[t] < b.rows
    requires HoldsSide(out, offset, sub, ids)
    requires c in plan.deviceCols || plan.rowIds
    ensures SideHostColumn(plan, b, out, offset, c) == Ok(Pick(b.columns[c], ids))
  {
    SideColumn(plan, b, sub, ids, c);
  }

  lemma {:induction false} DeviceHoldsSides(l: Batch, r: Batch, arranged: seq<RowPair>)
    ensures HoldsSide(DeviceJoin(l, r, arranged), 0, l, Lefts(arranged))
    ensures HoldsSide(DeviceJoin(l, r, arranged), |l.columns|, r, Rights(arranged))
  {
    forall k: nat | k < |l.columns| ensures ColumnAt(DeviceJoin(l, r, arranged), k) == Pick(l.columns[k], Lefts(arranged)) {
      DeviceJoinColumn(l, r, arranged, k);
    }
    forall k: nat | k < |r.columns| ensures ColumnAt(DeviceJoin(l, r, arranged), |l.columns| + k) == Pick(r.columns[k], Rights(arranged)) {
      DeviceJoinColumn(l, r, arranged, |l.columns| + k);
    }
  }

  lemma {:induction false} LeftHostColumn(cut: JoinCut, l: Batch, lk: nat, r: Batch, rk: nat, selected: seq<nat>,
                                          arranged: seq<RowPair>, c: nat)
    requires Valid(l) && Valid(r) && CutsJoin(cut, l, lk, r, rk, selected)
    requires PairsInRange(arranged, l.rows, r.rows)
    requires c in selected && c < |l.columns|
    ensures SideHostColumn(cut.leftPlan, l, DeviceJoin(cut.leftSub, cut.rightSub, arranged), 0, c)
         == Ok(Pick(l.columns[c], Lefts(arranged)))
  {
    DeviceHoldsSides(cut.leftSub, cut.rightSub, arranged);
    SplitMeaning(selected, |l.columns|);
    assert c in LeftOf(selected, |l.columns|);
    SideRebuilt(cut.leftPlan, l, cut.leftSub, DeviceJoin(cut.leftSub, cut.rightSub, arranged), 0, Lefts(arranged), c);
  }

  lemma {:induction false} RightHostColumn(cut: JoinCut, l: Batch, lk: nat, r: Batch, rk: nat, selected: seq<nat>,
                                           arranged: seq<RowPair>, c: nat)
    requires Valid(l) && Valid(r) && CutsJoin(cut, l, lk, r, rk, selected)
    requires PairsInRange(arranged, l.rows, r.rows)
    requires |l.columns| + c in selected && c < |r.columns|
    ensures SideHostColumn(cut.rightPlan, r, DeviceJoin(cut.leftSub, cut.rightSub, arranged), cut.leftPlan.Width(), c)
         == Ok(Pick(r.columns[c], Rights(arranged)))
  {
    DeviceHoldsSides(cut.leftSub, cut.rightSub, arranged);
    SplitMeaning(selected, |l.columns|);
    assert c in RightOf(selected, |l.columns|);
    SubBatchShape(cut.leftPlan, l);
    SideRebuilt(cut.rightPlan, r, cut.rightSub, DeviceJoin(cut.leftSub, cut.rightSub, arranged), cut.leftPlan.Width(),
                Rights(arranged), c);
  }

  lemma {:induction false} JoinHostColumn(cut: JoinCut, l: Batch, lk: nat, r: Batch, rk: nat, selected: seq<nat>,
                                          arranged: seq<RowPair>, index: nat)
    requires Valid(l) && Valid(r) && CutsJoin(cut, l, lk, r, rk, selected)
    requires PairsInRange(arranged, l.rows, r.rows)
    requires index in selected && index < |l.columns| + |r.columns|
    ensures HostColumn(cut, l, r, DeviceJoin(cut.leftSub, cut.rightSub, arranged), index) == Ok(JoinColumn(l, r, index, arranged))
  {
    if index < |l.columns| {
      LeftHostColumn(cut, l, lk, r, rk, selected, arranged, index);
    } else {
      RightHostColumn(cut, l, lk, r, rk, selected, arranged, index - |l.columns|);
    }
  }

  /** Rebuilds the selected columns from the device's output. */
  method ReassembleJoin(cut: JoinCut, l: Batch, ghost lk: nat, r: Batch, ghost rk: nat, selected: seq<nat>, out: Batch,
                        ghost arranged: seq<RowPair>)
    returns (res: Result<seq<seq<Value>>>)
    requires Valid(l) && Valid(r) && CutsJoin(cut, l, lk, r, rk, selected)
    requires PairsInRange(arranged, l.rows, r.rows) && out == DeviceJoin(cut.leftSub, cut.rightSub, arranged)
    requires ColsInRange(selected, |l.columns| + |r.columns|)
    ensures res == Ok(JoinColumns(l, r, selected, arranged))
  {
    var columns: seq<seq<Value>> := [];
    for k := 0 to |selected|
      invariant |columns| == k
      invariant forall t :: 0 <= t < k ==> columns[t] == JoinColumn(l, r, selected[t], arranged)
    {
      JoinHostColumn(cut, l, lk, r, rk, selected, arranged, selected[k]);
      columns := columns + [HostColumn(cut, l, r, out, selected[k]).value];
    }
    assert columns == JoinColumns(l, r, selected, arranged);
    return Ok(columns);
  }
}
