/**
 Every run of a plan that keeps the distribution contract delivers the same bag
 of rows, `Denote`, however exchanges route and interleave.
 */
module Determinacy {
  import opened Core
  import opened Bags
  import opened Groups
  import opened Orders
  import opened Merging
  import opened Plans

  // ------------------------------------------------- partitions and widths

  lemma {:induction false} RunCount(env: Env, p: Plan, out: seq<seq<Row>>)
    requires Runs(env, p, out)
    ensures |out| == PartCount(p)
    decreases p
  {
    if p.HashJoin? || p.SortMergeJoin? {
      var ls, rs := SideRuns(env, p, out);
      RunCount(env, p.right, rs);
    } else if p.GpuHashJoin? {
      var ls, rs := SideRuns(env, p, out);
      RunCount(env, p.left, ls);
    } else if RowWise(p) || p.Sort? || p.Aggregate? {
      var ins := ChildRun(env, p, out);
      RunCount(env, p.input, ins);
    }
  }

  ghost predicate Wide(out: seq<seq<Row>>, width: nat) {
    forall i, r :: 0 <= i < |out| && r in out[i] ==> |r| == width
  }

  lemma {:induction false} PermMember<A>(s: seq<A>, t: seq<A>, x: A)
    requires Perm(s, t) && x in s
    ensures x in t
  {
    assert x in multiset(s);
  }

  lemma {:induction false} MappedMember(f: Row -> seq<Row>, ins: seq<seq<Row>>, out: seq<seq<Row>>, i: nat, r: Row)
    requires Mapped(f, ins, out) && i < |out| && r in out[i]
    ensures exists x :: x in ins[i] && r in f(x)
  {
    FlatMapMember(f, ins[i], r);
  }

  lemma {:induction false} GroupedMember(g: Grouping, ins: seq<seq<Row>>, out: seq<seq<Row>>, i: nat, r: Row)
    requires Grouped(g, ins, out) && i < |out| && r in out[i]
    ensures exists x :: x in ins[i] && r == GroupRow(g, ins[i], g.key(x))
  {
    PermMember(out[i], Group(g, ins[i]), r);
    GroupKeys(g, ins[i], r);
  }

  // --------------------------------------------------------- rows of a join

  /** Every row comes from a matching pair. */
  ghost predicate DrawnFrom(m: (Row, Row) -> seq<Row>, xs: seq<Row>, ys: seq<Row>, part: seq<Row>) {
    forall r :: r in part ==> exists x, y :: x in xs && y in ys && r in m(x, y)
  }

  lemma {:induction false} PairedDrawn(m: (Row, Row) -> seq<Row>, xs: seq<Row>, ys: seq<Row>, part: seq<Row>)
    requires Perm(part, Pair(m, xs, ys))
    ensures DrawnFrom(m, xs, ys, part)
  {
    forall r | r in part ensures exists x, y :: x in xs && y in ys && r in m(x, y) {
      PermMember(part, Pair(m, xs, ys), r);
      PairMember(m, xs, ys, r);
    }
  }

  lemma {:induction false} MergeDrawn(j: Merger, xs: seq<Row>, ys: seq<Row>)
    ensures DrawnFrom(j.emit, xs, ys, Merge(j, xs, ys))
  {
    forall r | r in Merge(j, xs, ys) ensures exists x, y :: x in xs && y in ys && r in j.emit(x, y) {
      MergeMember(j, xs, ys, r);
    }
  }

  lemma {:induction false} PartnersPair(m: (Row, Row) -> seq<Row>, ls: seq<Row>, rs: seq<Row>)
    ensures FlatMap(Partners(m, ls), rs) == Pair(Flipped(m), rs, ls)
  {
    if rs != [] {
      PartnersPair(m, ls, rs[1..]);
    }
  }

  /** Probing row by row yields the join. */
  lemma {:induction false} ProbedJoin(m: (Row, Row) -> seq<Row>, ls: seq<Row>, rs: seq<Row>, part: seq<Row>)
    requires InOrder(Partners(m, ls), rs, part)
    ensures Perm(part, Pair(m, ls, rs))
  {
    InOrderPerm(Partners(m, ls), rs, part);
    PartnersPair(m, ls, rs);
    PairSwap(m, Flipped(m), ls, rs);
  }

  lemma {:induction false} MappedWide(f: Row -> seq<Row>, ins: seq<seq<Row>>, out: seq<seq<Row>>, width: nat)
    requires Mapped(f, ins, out)
    requires forall i, x, r :: 0 <= i < |ins| && x in ins[i] && r in f(x) ==> |r| == width
    ensures Wide(out, width)
  {
    forall i, r | 0 <= i < |out| && r in out[i] ensures |r| == width {
      MappedMember(f, ins, out, i, r);
    }
  }

  lemma {:induction false} JoinWide(cond: JoinOn, proj: Option<seq<nat>>, xs: seq<Row>, ys: seq<Row>, part: seq<Row>,
                                    lw: nat, rw: nat)
    requires DrawnFrom(JoinFn(cond, proj), xs, ys, part)
    requires forall x :: x in xs ==> |x| == lw
    requires forall y :: y in ys ==> |y| == rw
    ensures forall r :: r in part ==> |r| == if proj.None? then lw + rw else |proj.value|
  {
  }

  lemma {:induction false} FlattenWide(parts: seq<seq<Row>>, width: nat)
    requires Wide(parts, width)
    ensures forall r :: r in Flatten(parts) ==> |r| == width
  {
    forall r | r in Flatten(parts) ensures |r| == width {
      FlattenMember(parts, r);
    }
  }

  lemma {:induction false} ReorderedWide(ins: seq<seq<Row>>, out: seq<seq<Row>>, width: nat)
    requires Reordered(ins, out) && Wide(ins, width)
    ensures Wide(out, width)
  {
    forall i, r | 0 <= i < |out| && r in out[i] ensures |r| == width {
      PermMember(out[i], ins[i], r);
    }
  }

  lemma {:induction false} GroupedWide(g: Grouping, ins: seq<seq<Row>>, out: seq<seq<Row>>, width: nat)
    requires Grouped(g, ins, out)
    requires forall r :: |g.key(r)| + |g.aggs| == width
    ensures Wide(out, width)
  {
    forall i, r | 0 <= i < |out| && r in out[i] ensures |r| == width {
      GroupedMember(g, ins, out, i, r);
    }
  }

  /** Rows are as wide as the schema says. */
  lemma {:induction false} RunWidth(env: Env, p: Plan, out: seq<seq<Row>>)
    requires WellFormed(p) && Runs(env, p, out)
    ensures Wide(out, |SchemaOf(p)|)
    decreases p, 1
  {
    if RowWise(p) {
      RowWiseWidth(env, p, out);
    } else if p.HashJoin? {
      HashJoinWidth(env, p, out);
    } else if p.SortMergeJoin? {
      SortMergeJoinWidth(env, p, out);
    } else if p.GpuHashJoin? {
      GpuHashJoinWidth(env, p, out);
    } else if p.Aggregate? || p.GpuAggregate? {
      AggregateWidth(env, p, out);
    } else if p.Scan? {
      ReorderedWide(p.parts, out, |p.schema|);
    } else {
      RegroupedWidth(env, p, out);
    }
  }

  /** What a row-wise node makes of a row is as wide as its schema. */
  lemma {:induction false} RowFnWidth(env: Env, p: Plan, x: Row, r: Row)
    requires RowWise(p) && |x| == |SchemaOf(p.input)| && r in RowFn(env, p)(x)
    ensures |r| == |SchemaOf(p)|
  {
    match p
    case Filter(_, _, _) =>
    case Projection(es, _) => assert RowFn(env, p)(x) == [GroupKey(es)(x)];
    case GpuFilter(_, _, _, _) =>
    case GpuVectorDistance(_, _, _, _, _, _) =>
  }

  lemma {:induction false} RowWiseWidth(env: Env, p: Plan, out: seq<seq<Row>>)
    requires RowWise(p) && WellFormed(p) && Runs(env, p, out)
    ensures Wide(out, |SchemaOf(p)|)
    decreases p, 0
  {
    var ins := ChildRun(env, p, out);
    RunWidth(env, p.input, ins);
    forall i, x, r | 0 <= i < |ins| && x in ins[i] && r in RowFn(env, p)(x) ensures |r| == |SchemaOf(p)| {
      RowFnWidth(env, p, x, r);
    }
    MappedWide(RowFn(env, p), ins, out, |SchemaOf(p)|);
  }

  /** Sorts and exchanges only move rows. */
  lemma {:induction false} RegroupedWidth(env: Env, p: Plan, out: seq<seq<Row>>)
    requires (p.Sort? || p.Repartition? || p.Coalesce?) && WellFormed(p) && Runs(env, p, out)
    ensures Wide(out, |SchemaOf(p)|)
    decreases p, 0
  {
    var ins := MovedRun(env, p, out);
    RunWidth(env, p.input, ins);
    FlattenWide(ins, |SchemaOf(p)|);
    forall i, r | 0 <= i < |out| && r in out[i] ensures |r| == |SchemaOf(p)| {
      FlattenMember(out, r);
      PermMember(Flatten(out), Flatten(ins), r);
    }
  }

  lemma {:induction false} MovedRun(env: Env, p: Plan, out: seq<seq<Row>>) returns (ins: seq<seq<Row>>)
    requires (p.Sort? || p.Repartition? || p.Coalesce?) && WellFormed(p) && Runs(env, p, out)
    ensures Runs(env, p.input, ins) && Perm(Flatten(out), Flatten(ins))
    ensures p.Sort? ==> Reordered(ins, out)
  {
    ins := ChildRun(env, p, out);
    if p.Sort? {
      FlattenPerm(out, ins);
    }
  }

  lemma {:induction false} AggregateWidth(env: Env, p: Plan, out: seq<seq<Row>>)
    requires (p.Aggregate? || p.GpuAggregate?) && WellFormed(p) && Runs(env, p, out)
    ensures Wide(out, |SchemaOf(p)|)
  {
    if p.Aggregate? {
      var g := GroupingOf(p.aggMode, p.group, p.aggrs);
      var ins := ChildRun(env, p, out);
      GroupedWide(g, ins, out, |SchemaOf(p)|);
    } else {
      var g := SpecGrouping(p.spec);
      var ins := ChildRun(env, p, out);
      GroupedWide(g, [Flatten(ins)], out, |SchemaOf(p)|);
    }
  }

  lemma {:induction false} SortMergeJoinWidth(env: Env, p: Plan, out: seq<seq<Row>>)
    requires p.SortMergeJoin? && WellFormed(p) && Runs(env, p, out)
    ensures Wide(out, |SchemaOf(p)|)
    decreases p, 0
  {
    var SortMergeJoin(cond, l, r) := p;
    var ls, rs := SideRuns(env, p, out);
    RunWidth(env, l, ls);
    RunWidth(env, r, rs);
    forall i | 0 <= i < |out| ensures forall q :: q in out[i] ==> |q| == |SchemaOf(p)| {
      MergeDrawn(MergerOf(cond), ls[i], rs[i]);
      JoinWide(cond, None, ls[i], rs[i], out[i], |SchemaOf(l)|, |SchemaOf(r)|);
    }
  }

  lemma {:induction false} GpuHashJoinWidth(env: Env, p: Plan, out: seq<seq<Row>>)
    requires p.GpuHashJoin? && WellFormed(p) && Runs(env, p, out)
    ensures Wide(out, |SchemaOf(p)|)
    decreases p, 0
  {
    var GpuHashJoin(lk, rk, proj, _, l, r) := p;
    var ls, rs := SideRuns(env, p, out);
    RunWidth(env, l, ls);
    RunWidth(env, r, rs);
    FlattenWide(rs, |SchemaOf(r)|);
    forall i | 0 <= i < |out| ensures forall q :: q in out[i] ==> |q| == |SchemaOf(p)| {
      PairedDrawn(JoinFn(OnKeys(lk, rk), proj), ls[i], Flatten(rs), out[i]);
      JoinWide(OnKeys(lk, rk), proj, ls[i], Flatten(rs), out[i], |SchemaOf(l)|, |SchemaOf(r)|);
    }
  }

  lemma {:induction false} HashJoinWidth(env: Env, p: Plan, out: seq<seq<Row>>)
    requires p.HashJoin? && WellFormed(p) && Runs(env, p, out)
    ensures Wide(out, |SchemaOf(p)|)
    decreases p, 0
  {
    var HashJoin(mode, cond, proj, l, r) := p;
    var m := JoinFn(cond, proj);
    var ls, rs := SideRuns(env, p, out);
    RunWidth(env, l, ls);
    RunWidth(env, r, rs);
    forall i | 0 <= i < |out| ensures forall q :: q in out[i] ==> |q| == |SchemaOf(p)| {
      ProbedJoin(m, Opposite(mode, ls, i), rs[i], out[i]);
      PairedDrawn(m, Opposite(mode, ls, i), rs[i], out[i]);
      JoinWide(cond, proj, Opposite(mode, ls, i), rs[i], out[i], |SchemaOf(l)|, |SchemaOf(r)|);
    }
  }

  // ---------------------------------------------------------------- routing

  lemma {:induction false} MappedRouted(hash: Row -> nat, f: Row -> seq<Row>, ins: seq<seq<Row>>, out: seq<seq<Row>>,
                                        cols: seq<nat>, back: seq<nat>)
    requires Mapped(f, ins, out) && RoutedBy(hash, back, ins)
    requires forall i, x, r :: 0 <= i < |ins| && x in ins[i] && r in f(x) ==> Pick(r, cols) == Pick(x, back)
    ensures RoutedBy(hash, cols, out)
  {
    forall i, r | 0 <= i < |out| && r in out[i] ensures hash(Pick(r, cols)) % |out| == i {
      MappedMember(f, ins, out, i, r);
      var x :| x in ins[i] && r in f(x);
      assert Pick(r, cols) == Pick(x, back);
    }
  }

  lemma {:induction false} ReorderedRouted(hash: Row -> nat, ins: seq<seq<Row>>, out: seq<seq<Row>>, cols: seq<nat>)
    requires Reordered(ins, out) && RoutedBy(hash, cols, ins)
    ensures RoutedBy(hash, cols, out)
  {
    forall i, r | 0 <= i < |out| && r in out[i] ensures hash(Pick(r, cols)) % |out| == i {
      PermMember(out[i], ins[i], r);
    }
  }

  lemma {:induction false} GroupedRouted(hash: Row -> nat, m: AggregateMode, g: seq<(Expr, string)>,
                                         aggrs: seq<AggrExpr>,
                      ins: seq<seq<Row>>, out: seq<seq<Row>>, cols: seq<nat>)
    requires Grouped(GroupingOf(m, g, aggrs), ins, out)
    requires PlainCols(g, cols) && RoutedBy(hash, ThroughExprs(g, cols), ins)
    ensures RoutedBy(hash, cols, out)
  {
    forall i, r | 0 <= i < |out| && r in out[i] ensures hash(Pick(r, cols)) % |out| == i {
      GroupedMember(GroupingOf(m, g, aggrs), ins, out, i, r);
      var x :| x in ins[i] && r == GroupRow(GroupingOf(m, g, aggrs), ins[i], GroupKey(g)(x));
      assert Pick(r, cols) == Pick(x, ThroughExprs(g, cols));
    }
  }

  lemma {:induction false} PickBack(row: Row, proj: Option<seq<nat>>, cols: seq<nat>)
    requires ProjCovers(proj, cols)
    ensures Pick(Out(proj, row), cols) == Pick(row, Back(proj, cols))
  {
  }

  lemma {:induction false} PickRight(l: Row, r: Row, cols: seq<nat>)
    requires AllAtLeast(cols, |l|)
    ensures Pick(l + r, cols) == Pick(r, Unshift(cols, |l|))
  {
  }

  lemma {:induction false} PickProbe(l: Row, r: Row, lk: nat, rk: nat, cols: seq<nat>)
    requires forall k :: 0 <= k < |cols| ==> OnProbe(cols[k], |l|, rk)
    requires At(l, lk) == At(r, rk)
    ensures Pick(l + r, cols) == Pick(l, ToProbe(cols, |l|, lk))
  {
  }

  /** A join whose probe side is the right input keeps that side's routing. */
  lemma {:induction false} RightRouted(hash: Row -> nat, cond: JoinOn, proj: Option<seq<nat>>, ls: seq<Row>,
                                       rs: seq<Row>, part: seq<Row>,
                    lw: nat, cols: seq<nat>, n: nat, i: nat)
    requires DrawnFrom(JoinFn(cond, proj), ls, rs, part) && n > 0
    requires ProjCovers(proj, cols) && AllAtLeast(Back(proj, cols), lw)
    requires forall l :: l in ls ==> |l| == lw
    requires forall r :: r in rs ==> hash(Pick(r, Unshift(Back(proj, cols), lw))) % n == i
    ensures forall q :: q in part ==> hash(Pick(q, cols)) % n == i
  {
    forall q | q in part ensures hash(Pick(q, cols)) % n == i {
      var l, r :| l in ls && r in rs && q in JoinFn(cond, proj)(l, r);
      PickBack(l + r, proj, cols);
      PickRight(l, r, Back(proj, cols));
    }
  }

  lemma {:induction false} ProbeRouted(hash: Row -> nat, lk: nat, rk: nat, proj: Option<seq<nat>>, ls: seq<Row>,
                                       rs: seq<Row>, part: seq<Row>,
                    lw: nat, cols: seq<nat>, n: nat, i: nat)
    requires DrawnFrom(JoinFn(OnKeys(lk, rk), proj), ls, rs, part) && n > 0
    requires ProjCovers(proj, cols)
    requires forall k :: 0 <= k < |Back(proj, cols)| ==> OnProbe(Back(proj, cols)[k], lw, rk)
    requires forall l :: l in ls ==> |l| == lw
    requires forall l :: l in ls ==> hash(Pick(l, ToProbe(Back(proj, cols), lw, lk))) % n == i
    ensures forall q :: q in part ==> hash(Pick(q, cols)) % n == i
  {
    forall q | q in part ensures hash(Pick(q, cols)) % n == i {
      var l, r :| l in ls && r in rs && q in JoinFn(OnKeys(lk, rk), proj)(l, r);
      assert KeysMatch(false, Eval(OnKeys(lk, rk).on[0].0, l), Eval(OnKeys(lk, rk).on[0].1, r));
      PickBack(l + r, proj, cols);
      PickProbe(l, r, lk, rk, Back(proj, cols));
    }
  }

  /** `HashOn` is sound: every run is routed by the hash of those columns. */
  lemma {:induction false} RunRouted(env: Env, p: Plan, out: seq<seq<Row>>, cols: seq<nat>)
    requires WellFormed(p) && HashOn(p, cols) && Runs(env, p, out)
    ensures RoutedBy(env.hash, cols, out)
    decreases p, 1
  {
    if RowWise(p) {
      RowWiseRouted(env, p, out, cols);
    } else if p.HashJoin? {
      HashJoinRouted(env, p, out, cols);
    } else if p.SortMergeJoin? {
      SortMergeJoinRouted(env, p, out, cols);
    } else if p.GpuHashJoin? {
      GpuHashJoinRouted(env, p, out, cols);
    } else if p.Aggregate? {
      AggregateRouted(env, p, out, cols);
    } else if p.Sort? {
      SortRouted(env, p, out, cols);
    }
  }

  lemma {:induction false} SortRouted(env: Env, p: Plan, out: seq<seq<Row>>, cols: seq<nat>)
    requires p.Sort? && WellFormed(p) && HashOn(p, cols) && Runs(env, p, out)
    ensures RoutedBy(env.hash, cols, out)
    decreases p, 0
  {
    var ins := MovedRun(env, p, out);
    RunRouted(env, p.input, ins, cols);
    ReorderedRouted(env.hash, ins, out, cols);
  }

  lemma {:induction false} AggregateRouted(env: Env, p: Plan, out: seq<seq<Row>>, cols: seq<nat>)
    requires p.Aggregate? && WellFormed(p) && HashOn(p, cols) && Runs(env, p, out)
    ensures RoutedBy(env.hash, cols, out)
    decreases p, 0
  {
    var Aggregate(m, g, aggrs, i) := p;
    var ins := ChildRun(env, p, out);
    RunRouted(env, i, ins, ThroughExprs(g, cols));
    GroupedRouted(env.hash, m, g, aggrs, ins, out, cols);
  }

  lemma {:induction false} BehindPicks(env: Env, p: Plan, cols: seq<nat>, x: Row, r: Row)
    requires RowWise(p) && Behind(p, cols).Some? && |x| == |SchemaOf(p.input)| && r in RowFn(env, p)(x)
    ensures Pick(r, cols) == Pick(x, Behind(p, cols).value)
  {
    match p
    case Filter(_, proj, _) => PickBack(x, proj, cols);
    case Projection(es, _) => assert r == GroupKey(es)(x);
    case GpuFilter(_, _, _, _) =>
    case GpuVectorDistance(_, _, _, _, _, _) =>
  }

  lemma {:induction false} RowWiseRouted(env: Env, p: Plan, out: seq<seq<Row>>, cols: seq<nat>)
    requires RowWise(p) && WellFormed(p) && HashOn(p, cols) && Runs(env, p, out)
    ensures RoutedBy(env.hash, cols, out)
    decreases p, 0
  {
    var back := Behind(p, cols).value;
    var ins := ChildRun(env, p, out);
    RunRouted(env, p.input, ins, back);
    RunWidth(env, p.input, ins);
    forall i, x, r | 0 <= i < |ins| && x in ins[i] && r in RowFn(env, p)(x) ensures Pick(r, cols) == Pick(x, back) {
      BehindPicks(env, p, cols, x, r);
    }
    MappedRouted(env.hash, RowFn(env, p), ins, out, cols, back);
  }

  lemma {:induction false} SortMergeJoinRouted(env: Env, p: Plan, out: seq<seq<Row>>, cols: seq<nat>)
    requires p.SortMergeJoin? && WellFormed(p) && HashOn(p, cols) && Runs(env, p, out)
    ensures RoutedBy(env.hash, cols, out)
    decreases p, 0
  {
    var SortMergeJoin(cond, l, r) := p;
    var ls, rs := SideRuns(env, p, out);
    RunRouted(env, r, rs, Unshift(cols, |SchemaOf(l)|));
    RunWidth(env, l, ls);
    forall i | 0 <= i < |out| ensures forall q :: q in out[i] ==> env.hash(Pick(q, cols)) % |out| == i {
      MergeDrawn(MergerOf(cond), ls[i], rs[i]);
      RightRouted(env.hash, cond, None, ls[i], rs[i], out[i], |SchemaOf(l)|, cols, |out|, i);
    }
  }

  lemma {:induction false} GpuHashJoinRouted(env: Env, p: Plan, out: seq<seq<Row>>, cols: seq<nat>)
    requires p.GpuHashJoin? && WellFormed(p) && HashOn(p, cols) && Runs(env, p, out)
    ensures RoutedBy(env.hash, cols, out)
    decreases p, 0
  {
    var GpuHashJoin(lk, rk, proj, _, l, r) := p;
    var ls, rs := SideRuns(env, p, out);
    RunRouted(env, l, ls, ToProbe(Back(proj, cols), |SchemaOf(l)|, lk));
    RunWidth(env, l, ls);
    forall i | 0 <= i < |out| ensures forall q :: q in out[i] ==> env.hash(Pick(q, cols)) % |out| == i {
      PairedDrawn(JoinFn(OnKeys(lk, rk), proj), ls[i], Flatten(rs), out[i]);
      ProbeRouted(env.hash, lk, rk, proj, ls[i], Flatten(rs), out[i], |SchemaOf(l)|, cols, |out|, i);
    }
  }

  lemma {:induction false} HashJoinRouted(env: Env, p: Plan, out: seq<seq<Row>>, cols: seq<nat>)
    requires p.HashJoin? && WellFormed(p) && HashOn(p, cols) && Runs(env, p, out)
    ensures RoutedBy(env.hash, cols, out)
    decreases p, 0
  {
    var HashJoin(mode, cond, proj, l, r) := p;
    var m := JoinFn(cond, proj);
    var ls, rs := SideRuns(env, p, out);
    RunRouted(env, r, rs, Unshift(Back(proj, cols), |SchemaOf(l)|));
    RunWidth(env, l, ls);
    forall i | 0 <= i < |out| ensures forall q :: q in out[i] ==> env.hash(Pick(q, cols)) % |out| == i {
      ProbedJoin(m, Opposite(mode, ls, i), rs[i], out[i]);
      PairedDrawn(m, Opposite(mode, ls, i), rs[i], out[i]);
      RightRouted(env.hash, cond, proj, Opposite(mode, ls, i), rs[i], out[i], |SchemaOf(l)|, cols, |out|, i);
    }
  }

  // ------------------------------------------------------------------ order

  lemma {:induction false} MappedOrdered(f: Row -> seq<Row>, ins: seq<seq<Row>>, out: seq<seq<Row>>, cols: seq<nat>,
                                         back: seq<nat>)
    requires Mapped(f, ins, out) && Ascending(back, ins)
    requires forall i, x, r :: 0 <= i < |ins| && x in ins[i] && r in f(x) ==> Pick(r, cols) == Pick(x, back)
    ensures Ascending(cols, out)
  {
    forall i | 0 <= i < |out| ensures SortedBy(ColumnsOf(cols), out[i]) {
      FlatMapInOrder(f, ins[i]);
      InOrderSorted(f, ins[i], out[i], ColumnsOf(back), ColumnsOf(cols));
    }
  }

  lemma {:induction false} PrefixOrdered(keys: seq<nat>, cols: seq<nat>, out: seq<seq<Row>>)
    requires Ascending(keys, out) && cols <= keys
    ensures Ascending(cols, out)
  {
    forall i | 0 <= i < |out| ensures SortedBy(ColumnsOf(cols), out[i]) {
      var part := out[i];
      forall a, b | 0 <= a < b < |part| ensures Leq(ColumnsOf(cols)(part[a]), ColumnsOf(cols)(part[b])) {
        assert Leq(ColumnsOf(keys)(part[a]), ColumnsOf(keys)(part[b]));
        LexPrefix(Before, Pick(part[a], keys), Pick(part[b], keys), |cols|);
        assert Pick(part[a], keys)[..|cols|] == Pick(part[a], cols);
        assert Pick(part[b], keys)[..|cols|] == Pick(part[b], cols);
      }
    }
  }

  /** `OrderOn` is sound: every partition of every run is in that order. */
  lemma {:induction false} RunOrdered(env: Env, p: Plan, out: seq<seq<Row>>, cols: seq<nat>)
    requires WellFormed(p) && OrderOn(p, cols) && Runs(env, p, out)
    ensures Ascending(cols, out)
    decreases p, 1
  {
    if RowWise(p) {
      RowWiseOrdered(env, p, out, cols);
    } else if p.HashJoin? {
      HashJoinOrdered(env, p, out, cols);
    } else if p.SortMergeJoin? {
      SortMergeJoinOrdered(env, p, out, cols);
    } else {
      SortOrdered(env, p, out, cols);
    }
  }

  lemma {:induction false} SortOrdered(env: Env, p: Plan, out: seq<seq<Row>>, cols: seq<nat>)
    requires p.Sort? && WellFormed(p) && cols <= p.keys && Runs(env, p, out)
    ensures Ascending(cols, out)
  {
    PrefixOrdered(p.keys, cols, out);
  }

  lemma {:induction false} RowWiseOrdered(env: Env, p: Plan, out: seq<seq<Row>>, cols: seq<nat>)
    requires RowWise(p) && WellFormed(p) && OrderOn(p, cols) && Runs(env, p, out)
    ensures Ascending(cols, out)
    decreases p, 0
  {
    var back := Behind(p, cols).value;
    var ins := ChildRun(env, p, out);
    RunOrdered(env, p.input, ins, back);
    RunWidth(env, p.input, ins);
    forall i, x, r | 0 <= i < |ins| && x in ins[i] && r in RowFn(env, p)(x) ensures Pick(r, cols) == Pick(x, back) {
      BehindPicks(env, p, cols, x, r);
    }
    MappedOrdered(RowFn(env, p), ins, out, cols, back);
  }

  lemma {:induction false} PartnersPick(cond: JoinOn, proj: Option<seq<nat>>, ls: seq<Row>, lw: nat, cols: seq<nat>,
                                        r: Row, q: Row)
    requires ProjCovers(proj, cols) && AllAtLeast(Back(proj, cols), lw) && forall l :: l in ls ==> |l| == lw
    requires q in Partners(JoinFn(cond, proj), ls)(r)
    ensures Pick(q, cols) == Pick(r, Unshift(Back(proj, cols), lw))
  {
    PairRowMember(Flipped(JoinFn(cond, proj)), r, ls, q);
    var l :| l in ls && q in Flipped(JoinFn(cond, proj))(r, l);
    PickBack(l + r, proj, cols);
    PickRight(l, r, Back(proj, cols));
  }

  lemma {:induction false} HashJoinOrdered(env: Env, p: Plan, out: seq<seq<Row>>, cols: seq<nat>)
    requires p.HashJoin? && WellFormed(p) && OrderOn(p, cols) && Runs(env, p, out)
    ensures Ascending(cols, out)
    decreases p, 0
  {
    var HashJoin(mode, cond, proj, l, r) := p;
    var m := JoinFn(cond, proj);
    var back := Unshift(Back(proj, cols), |SchemaOf(l)|);
    var ls, rs := SideRuns(env, p, out);
    RunOrdered(env, r, rs, back);
    RunWidth(env, l, ls);
    forall i | 0 <= i < |out| ensures SortedBy(ColumnsOf(cols), out[i]) {
      ProbeOrdered(cond, proj, Opposite(mode, ls, i), rs[i], out[i], |SchemaOf(l)|, cols);
    }
  }

  lemma {:induction false} ProbeOrdered(cond: JoinOn, proj: Option<seq<nat>>, ls: seq<Row>, rs: seq<Row>,
                                        part: seq<Row>,
                                        lw: nat, cols: seq<nat>)
    requires InOrder(Partners(JoinFn(cond, proj), ls), rs, part)
    requires ProjCovers(proj, cols) && AllAtLeast(Back(proj, cols), lw) && forall l :: l in ls ==> |l| == lw
    requires SortedBy(ColumnsOf(Unshift(Back(proj, cols), lw)), rs)
    ensures SortedBy(ColumnsOf(cols), part)
  {
    var (f, back) := (Partners(JoinFn(cond, proj), ls), Unshift(Back(proj, cols), lw));
    forall x, q | x in rs && q in f(x) ensures ColumnsOf(cols)(q) == ColumnsOf(back)(x) {
      PartnersPick(cond, proj, ls, lw, cols, x, q);
    }
    InOrderSorted(f, rs, part, ColumnsOf(back), ColumnsOf(cols));
  }

  /** On a matching pair, the right key columns read as their left partners. */
  lemma {:induction false} PickLeft(cond: JoinOn, l: Row, r: Row, cols: seq<nat>)
    requires Matches(cond, l, r) && AllOnLeft(cond.on, |l|, cols)
    ensures Pick(l + r, cols) == Pick(l, ToLeft(cond.on, |l|, cols))
  {
    var left := ToLeft(cond.on, |l|, cols);
    forall c | 0 <= c < |cols| ensures At(l + r, cols[c]) == At(l, left[c]) {
      if cols[c] >= |l| {
        var k :| 0 <= k < |cond.on| && cond.on[k] == (Column(left[c]), Column(cols[c] - |l|));
        assert KeysMatch(cond.nullEqualsNull, Eval(cond.on[k].0, l), Eval(cond.on[k].1, r));
      }
    }
  }

  lemma {:induction false} SortMergeJoinOrdered(env: Env, p: Plan, out: seq<seq<Row>>, cols: seq<nat>)
    requires p.SortMergeJoin? && WellFormed(p) && OrderOn(p, cols) && Runs(env, p, out)
    ensures Ascending(cols, out)
    decreases p, 0
  {
    var SortMergeJoin(cond, l, r) := p;
    var ls, rs := SideRuns(env, p, out);
    RunOrdered(env, l, ls, ToLeft(cond.on, |SchemaOf(l)|, cols));
    RunWidth(env, l, ls);
    forall i | 0 <= i < |out| ensures SortedBy(ColumnsOf(cols), out[i]) {
      MergeOrder(cond, ls[i], rs[i], |SchemaOf(l)|, cols);
    }
  }

  lemma {:induction false} MergeOrder(cond: JoinOn, ls: seq<Row>, rs: seq<Row>, lw: nat, cols: seq<nat>)
    requires AllOnLeft(cond.on, lw, cols) && SortedBy(ColumnsOf(ToLeft(cond.on, lw, cols)), ls)
    requires forall l :: l in ls ==> |l| == lw
    ensures SortedBy(ColumnsOf(cols), Merge(MergerOf(cond), ls, rs))
  {
    var (j, left) := (MergerOf(cond), ToLeft(cond.on, lw, cols));
    forall l, r, q | l in ls && r in rs && q in j.emit(l, r) ensures ColumnsOf(cols)(q) == ColumnsOf(left)(l) {
      PickLeft(cond, l, r, cols);
    }
    MergeSorted(j, ls, rs, ColumnsOf(left), ColumnsOf(cols));
  }

  lemma {:induction false} KeysAreColumns(on: seq<(Expr, Expr)>, rows: seq<Row>)
    requires OnColumns(on)
    ensures SortedBy(ColumnsOf(LeftCols(on)), rows) ==> SortedBy(LeftKey(on), rows)
    ensures SortedBy(ColumnsOf(RightCols(on)), rows) ==> SortedBy(RightKey(on), rows)
  {
    forall r ensures LeftKey(on)(r) == ColumnsOf(LeftCols(on))(r) && RightKey(on)(r) == ColumnsOf(RightCols(on))(r) {
    }
  }

  lemma {:induction false} CompareSame(nullsMatch: bool, a: Row)
    requires forall i :: 0 <= i < |a| ==> nullsMatch || !a[i].Null?
    ensures CompareKeys(nullsMatch, a, a).Equal?
  {
    if a != [] {
      CompareSame(nullsMatch, a[1..]);
    }
  }

  /** The merge of a join condition yields rows on equal keys only. */
  lemma {:induction false} MergerCoherent(cond: JoinOn)
    ensures MergerOf(cond).Coherent()
  {
    var j := MergerOf(cond);
    forall x, y ensures |j.leftKey(x)| == |j.rightKey(y)| && (j.emit(x, y) != [] ==> j.Compare(x, y).Equal?) {
      if Matches(cond, x, y) {
        var (a, b) := (j.leftKey(x), j.rightKey(y));
        forall i | 0 <= i < |a| ensures a[i] == b[i] && (j.nullsMatch || !a[i].Null?) {
          assert KeysMatch(cond.nullEqualsNull, Eval(cond.on[i].0, x), Eval(cond.on[i].1, y));
        }
        assert a == b;
        CompareSame(j.nullsMatch, a);
      }
    }
  }

  // ------------------------------------------------------------ whole nodes

  lemma {:induction false} MappedWhole(f: Row -> seq<Row>, ins: seq<seq<Row>>, out: seq<seq<Row>>, all: seq<Row>)
    requires Mapped(f, ins, out) && Perm(Flatten(ins), all)
    ensures Perm(Flatten(out), FlatMap(f, all))
  {
    assert out == Each(s => FlatMap(f, s), ins);
    FlatMapFlatten(f, ins);
    FlatMapPerm(f, Flatten(ins), all);
  }

  lemma {:induction false} GroupedWhole(g: Grouping, ins: seq<seq<Row>>, out: seq<seq<Row>>, all: seq<Row>)
    requires Grouped(g, ins, out) && KeyDisjoint(g.key, ins) && Perm(Flatten(ins), all)
    ensures Perm(Flatten(out), Group(g, all))
  {
    FlattenPerm(out, GroupEach(g, ins));
    GroupPartitioned(g, ins);
    GroupPerm(g, Flatten(ins), all);
  }

  /** Each partition holds the join of the two partitions of its number. */
  ghost predicate PairedParts(m: (Row, Row) -> seq<Row>, ls: seq<seq<Row>>, rs: seq<seq<Row>>, out: seq<seq<Row>>) {
    |out| == |ls| == |rs| && forall i :: 0 <= i < |out| ==> Perm(out[i], Pair(m, ls[i], rs[i]))
  }

  lemma {:induction false} JoinedPaired(m: (Row, Row) -> seq<Row>, ls: seq<seq<Row>>, rs: seq<seq<Row>>,
                                        out: seq<seq<Row>>)
    requires Joined(Partitioned, m, ls, rs, out)
    ensures PairedParts(m, ls, rs, out)
  {
    forall i | 0 <= i < |out| ensures Perm(out[i], Pair(m, ls[i], rs[i])) {
      ProbedJoin(m, ls[i], rs[i], out[i]);
    }
  }

  lemma {:induction false} PairwiseParts(m: (Row, Row) -> seq<Row>, ls: seq<seq<Row>>, rs: seq<seq<Row>>,
                                         out: seq<seq<Row>>)
    requires PairedParts(m, ls, rs, out)
    ensures Perm(Flatten(out), Flatten(PairEach(m, ls, rs)))
  {
    if out != [] {
      PairwiseParts(m, ls[1..], rs[1..], out[1..]);
      assert Perm(out[0], Pair(m, ls[0], rs[0]));
    }
  }

  lemma {:induction false} PairwiseWhole(m: (Row, Row) -> seq<Row>, ls: seq<seq<Row>>, rs: seq<seq<Row>>,
                                         out: seq<seq<Row>>,
                      xs: seq<Row>, ys: seq<Row>)
    requires PairedParts(m, ls, rs, out) && CoPartitioned(m, ls, rs)
    requires Perm(Flatten(ls), xs) && Perm(Flatten(rs), ys)
    ensures Perm(Flatten(out), Pair(m, xs, ys))
  {
    PairwiseParts(m, ls, rs, out);
    PairCoPartitioned(m, ls, rs);
    PairPerm(m, Flatten(ls), xs, Flatten(rs), ys);
  }

  lemma {:induction false} ProbedWhole(m: (Row, Row) -> seq<Row>, ls: seq<seq<Row>>, rs: seq<seq<Row>>,
                                       out: seq<seq<Row>>,
                    xs: seq<Row>, ys: seq<Row>)
    requires Probed(m, ls, rs, out) && Perm(Flatten(ls), xs) && Perm(Flatten(rs), ys)
    ensures Perm(Flatten(out), Pair(m, xs, ys))
  {
    var build := Flatten(rs);
    FlattenPerm(out, Each(s => Pair(m, s, build), ls));
    PairFlattenLeft(m, ls, build);
    PairPerm(m, Flatten(ls), xs, build, ys);
  }

  lemma {:induction false} CollectedWhole(m: (Row, Row) -> seq<Row>, ls: seq<seq<Row>>, rs: seq<seq<Row>>,
                                          out: seq<seq<Row>>,
                       xs: seq<Row>, ys: seq<Row>)
    requires Joined(CollectLeft, m, ls, rs, out) && Perm(Flatten(ls), xs) && Perm(Flatten(rs), ys)
    ensures Perm(Flatten(out), Pair(m, xs, ys))
  {
    var n := (y: Row, x: Row) => m(x, y);
    forall i | 0 <= i < |out| ensures Perm(out[i], Pair(n, rs[i], Flatten(ls))) {
      assert ls == [ls[0]];
      FlattenOne(ls[0]);
      ProbedJoin(m, ls[0], rs[i], out[i]);
      PairSwap(m, n, ls[0], rs[i]);
    }
    assert Probed(n, rs, ls, out);
    ProbedWhole(n, rs, ls, out, ys, xs);
    PairSwap(m, n, xs, ys);
  }

  lemma {:induction false} KeyPick(g: seq<(Expr, string)>, cols: seq<nat>, r: Row, s: Row)
    requires KeyDetermines(g, cols) && GroupKey(g)(r) == GroupKey(g)(s)
    ensures Pick(r, cols) == Pick(s, cols)
  {
    forall c | 0 <= c < |cols| ensures At(r, cols[c]) == At(s, cols[c]) {
      var k :| 0 <= k < |g| && g[k].0 == Column(cols[c]);
      assert GroupKey(g)(r)[k] == At(r, cols[c]);
      assert GroupKey(g)(s)[k] == At(s, cols[c]);
    }
  }

  lemma {:induction false} MatchPick(cond: JoinOn, lc: seq<nat>, rc: seq<nat>, l: Row, r: Row)
    requires OnDetermines(cond, lc, rc) && Matches(cond, l, r)
    ensures Pick(l, lc) == Pick(r, rc)
  {
    forall c | 0 <= c < |lc| ensures At(l, lc[c]) == At(r, rc[c]) {
      var k :| 0 <= k < |cond.on| && cond.on[k] == (Column(lc[c]), Column(rc[c]));
      assert KeysMatch(cond.nullEqualsNull, Eval(cond.on[k].0, l), Eval(cond.on[k].1, r));
    }
  }

  /** Partitions routed by columns the key determines share no key. */
  lemma {:induction false} RoutedDisjoint(hash: Row -> nat, g: seq<(Expr, string)>, cols: seq<nat>, ins: seq<seq<Row>>)
    requires RoutedBy(hash, cols, ins) && KeyDetermines(g, cols)
    ensures KeyDisjoint(GroupKey(g), ins)
  {
    forall i, j, r, s | 0 <= i < |ins| && 0 <= j < |ins| && i != j && r in ins[i] && s in ins[j]
      ensures GroupKey(g)(r) != GroupKey(g)(s)
    {
      if GroupKey(g)(r) == GroupKey(g)(s) {
        KeyPick(g, cols, r, s);
        assert false;
      }
    }
  }

  /** Sides routed by columns the join condition equates are co-partitioned. */
  lemma {:induction false} RoutedCoPartitioned(hash: Row -> nat, cond: JoinOn, proj: Option<seq<nat>>, lc: seq<nat>,
                                               rc: seq<nat>,
                            ls: seq<seq<Row>>, rs: seq<seq<Row>>)
    requires |ls| == |rs| && RoutedBy(hash, lc, ls) && RoutedBy(hash, rc, rs) && OnDetermines(cond, lc, rc)
    ensures CoPartitioned(JoinFn(cond, proj), ls, rs)
  {
    forall i, j, l, r | 0 <= i < |ls| && 0 <= j < |rs| && i != j && l in ls[i] && r in rs[j]
      ensures JoinFn(cond, proj)(l, r) == []
    {
      if Matches(cond, l, r) {
        MatchPick(cond, lc, rc, l, r);
        assert false;
      }
    }
  }

  lemma {:induction false} FewDisjoint(key: Row -> Row, ins: seq<seq<Row>>)
    requires |ins| <= 1
    ensures KeyDisjoint(key, ins)
  {
  }

  // ------------------------------------------------------------- main result

  /** What a run of a state-carrying plan holds: the states of some split of the source rows. */
  ghost predicate StatesOf(env: Env, partial: Plan, out: seq<seq<Row>>)
    requires partial.Aggregate?
  {
    exists parts ::
      && Perm(Flatten(parts), Denote(env, partial.input))
      && Perm(Flatten(out), Flatten(GroupEach(GroupingOf(Partial, partial.group, partial.aggrs), parts)))
  }

  ghost predicate Delivers(env: Env, p: Plan, out: seq<seq<Row>>) {
    if HoldsStates(p) then StatesOf(env, PartialOf(p), out) else Perm(Flatten(out), Denote(env, p))
  }

  lemma {:induction false} FinalMerges(g: seq<(Expr, string)>, aggrs: seq<AggrExpr>, m: AggregateMode, partial: Plan)
    requires partial.Aggregate? && FinalFits(g, aggrs, partial) && (m.Final? || m.FinalPartitioned?)
    ensures Merges(GroupingOf(m, g, aggrs), GroupingOf(Partial, partial.group, partial.aggrs), |g|)
  {
    var (final, part) := (GroupingOf(m, g, aggrs), GroupingOf(Partial, partial.group, partial.aggrs));
    forall r: Row | |r| >= |g| ensures final.key(r) == r[..|g|] {
      assert forall i :: 0 <= i < |g| ==> GroupKey(g)(r)[i] == Eval(g[i].0, r);
    }
    forall j | 0 <= j < |aggrs|
      ensures final.aggs[j].merging && final.aggs[j].func == part.aggs[j].func
      ensures final.aggs[j].input == StateCell(|g| + j)
    {
    }
  }

  lemma {:induction false} AggregateDenotes(env: Env, p: Plan)
    requires p.Aggregate?
    ensures Denote(env, p) == Group(GroupingOf(p.aggMode, p.group, p.aggrs), Denote(env, p.input))
  {
  }

  lemma {:induction false} DenotePartial(env: Env, p: Plan)
    requires HoldsStates(p)
    ensures var partial := PartialOf(p);
            Denote(env, p) == Group(GroupingOf(Partial, partial.group, partial.aggrs), Denote(env, partial.input))
  {
    if p.Aggregate? {
      AggregateDenotes(env, p);
    } else {
      DenotePartial(env, p.input);
    }
  }

  lemma {:induction false} MergedOnce(final: Grouping, part: Grouping, n: nat, source: seq<Row>)
    requires Merges(final, part, n)
    ensures Perm(Group(final, Group(part, source)), Group(part, source))
  {
    assert GroupEach(part, [source]) == [Group(part, source)];
    FlattenOne(Group(part, source));
    FlattenOne(source);
    MergeIsExact(final, part, n, [source], Group(part, source));
  }

  /** A `Final` aggregate denotes one pass over the source rows of its `Partial`. */
  lemma {:induction false} FinalIsOnePass(env: Env, p: Plan)
    requires p.Aggregate? && (p.aggMode.Final? || p.aggMode.FinalPartitioned?) && WellFormed(p)
    ensures var partial := PartialOf(p.input);
            Perm(Denote(env, p), Group(GroupingOf(Partial, partial.group, partial.aggrs), Denote(env, partial.input)))
  {
    var partial := PartialOf(p.input);
    FinalMerges(p.group, p.aggrs, p.aggMode, partial);
    AggregateDenotes(env, p);
    DenotePartial(env, p.input);
    MergedOnce(GroupingOf(p.aggMode, p.group, p.aggrs), GroupingOf(Partial, partial.group, partial.aggrs), |p.group|,
               Denote(env, partial.input));
  }

  /** So does merging the states of any split of those rows. */
  lemma {:induction false} FinalDenotes(env: Env, p: Plan, states: seq<Row>, parts: seq<seq<Row>>)
    requires p.Aggregate? && (p.aggMode.Final? || p.aggMode.FinalPartitioned?) && WellFormed(p)
    requires Perm(Flatten(parts), Denote(env, PartialOf(p.input).input))
    requires var partial := PartialOf(p.input);
             Perm(states, Flatten(GroupEach(GroupingOf(Partial, partial.group, partial.aggrs), parts)))
    ensures Perm(Group(GroupingOf(p.aggMode, p.group, p.aggrs), states), Denote(env, p))
  {
    var partial := PartialOf(p.input);
    var part := GroupingOf(Partial, partial.group, partial.aggrs);
    FinalMerges(p.group, p.aggrs, p.aggMode, partial);
    MergeIsExact(GroupingOf(p.aggMode, p.group, p.aggrs), part, |p.group|, parts, states);
    GroupPerm(part, Flatten(parts), Denote(env, partial.input));
    FinalIsOnePass(env, p);
  }

  /**
   Determinacy: in every run of a well-formed plan that keeps the distribution and
   ordering contracts, the union of the output partitions is the plan's bag of rows.
   */
  lemma {:induction false} RunDelivers(env: Env, p: Plan, out: seq<seq<Row>>)
    requires WellFormed(p) && Contract(p) && Orderly(p) && Runs(env, p, out)
    ensures Delivers(env, p, out)
    decreases p, 1
  {
    if RowWise(p) {
      RowWiseDelivers(env, p, out);
    } else if p.HashJoin? {
      HashJoinDelivers(env, p, out);
    } else if p.SortMergeJoin? {
      SortMergeJoinDelivers(env, p, out);
    } else if p.GpuHashJoin? {
      GpuHashJoinDelivers(env, p, out);
    } else if p.Aggregate? {
      AggregateDelivers(env, p, out);
    } else if p.GpuAggregate? {
      GpuAggregateDelivers(env, p, out);
    } else if p.Scan? {
      FlattenPerm(out, p.parts);
    } else {
      MoveDelivers(env, p, out);
    }
  }

  lemma {:induction false} RowWiseRows(env: Env, p: Plan)
    requires RowWise(p)
    ensures Denote(env, p) == FlatMap(RowFn(env, p), Denote(env, p.input))
  {
  }

  lemma {:induction false} RowWiseDelivers(env: Env, p: Plan, out: seq<seq<Row>>)
    requires RowWise(p) && WellFormed(p) && Contract(p) && Orderly(p) && Runs(env, p, out)
    ensures Perm(Flatten(out), Denote(env, p))
    decreases p, 0
  {
    var ins := ChildRun(env, p, out);
    assert WellFormed(p.input) && !HoldsStates(p.input) && Contract(p.input) && Orderly(p.input);
    RunDelivers(env, p.input, ins);
    RowWiseWhole(env, p, ins, out);
  }

  lemma {:induction false} RowWiseWhole(env: Env, p: Plan, ins: seq<seq<Row>>, out: seq<seq<Row>>)
    requires RowWise(p) && NodeRuns(env, p, ins, out) && Perm(Flatten(ins), Denote(env, p.input))
    ensures Perm(Flatten(out), Denote(env, p))
  {
    RowWiseRows(env, p);
    MappedWhole(RowFn(env, p), ins, out, Denote(env, p.input));
  }

  lemma {:induction false} HashJoinDelivers(env: Env, p: Plan, out: seq<seq<Row>>)
    requires p.HashJoin? && WellFormed(p) && Contract(p) && Orderly(p) && Runs(env, p, out)
    ensures Perm(Flatten(out), Denote(env, p))
    decreases p, 0
  {
    var ls, rs := SideRuns(env, p, out);
    RunDelivers(env, p.left, ls);
    RunDelivers(env, p.right, rs);
    if p.mode.CollectLeft? {
      CollectedWhole(JoinFn(p.cond, p.projection), ls, rs, out, Denote(env, p.left), Denote(env, p.right));
    } else {
      PartitionedDelivers(env, p, ls, rs, out);
    }
  }

  lemma {:induction false} PartitionedDelivers(env: Env, p: Plan, ls: seq<seq<Row>>, rs: seq<seq<Row>>,
                                               out: seq<seq<Row>>)
    requires p.HashJoin? && p.mode.Partitioned? && WellFormed(p.left) && WellFormed(p.right)
      && MatchesTogether(p.left, p.right, p.cond)
    requires Runs(env, p.left, ls) && Runs(env, p.right, rs)
      && Joined(Partitioned, JoinFn(p.cond, p.projection), ls, rs, out)
    requires Perm(Flatten(ls), Denote(env, p.left)) && Perm(Flatten(rs), Denote(env, p.right))
    ensures Perm(Flatten(out), Pair(JoinFn(p.cond, p.projection), Denote(env, p.left), Denote(env, p.right)))
  {
    var m := JoinFn(p.cond, p.projection);
    FewOrCoHashed(env, p.cond, p.left, p.right, ls, rs);
    ContractCoPartitions(env, p.cond, p.projection, p.left, p.right, ls, rs);
    JoinedPaired(m, ls, rs, out);
    PairwiseWhole(m, ls, rs, out, Denote(env, p.left), Denote(env, p.right));
  }

  lemma {:induction false} SortMergeJoinDelivers(env: Env, p: Plan, out: seq<seq<Row>>)
    requires p.SortMergeJoin? && WellFormed(p) && Contract(p) && Orderly(p) && Runs(env, p, out)
    ensures Perm(Flatten(out), Denote(env, p))
    decreases p, 0
  {
    var SortMergeJoin(cond, l, r) := p;
    var m := JoinFn(cond, None);
    var ls, rs := SideRuns(env, p, out);
    RunDelivers(env, l, ls);
    RunDelivers(env, r, rs);
    OrderedMerges(env, p, ls, rs, out);
    FewOrCoHashed(env, cond, l, r, ls, rs);
    ContractCoPartitions(env, cond, None, l, r, ls, rs);
    PairwiseWhole(m, ls, rs, out, Denote(env, l), Denote(env, r));
  }

  /** Sides that arrive in the order of the join key merge to their join. */
  lemma {:induction false} OrderedMerges(env: Env, p: Plan, ls: seq<seq<Row>>, rs: seq<seq<Row>>, out: seq<seq<Row>>)
    requires p.SortMergeJoin? && WellFormed(p) && MergeOrdered(p.cond.on, p.left, p.right)
    requires Runs(env, p.left, ls) && Runs(env, p.right, rs) && Merged(MergerOf(p.cond), ls, rs, out)
    ensures PairedParts(JoinFn(p.cond, None), ls, rs, out)
  {
    var (on, j) := (p.cond.on, MergerOf(p.cond));
    RunOrdered(env, p.left, ls, LeftCols(on));
    RunOrdered(env, p.right, rs, RightCols(on));
    MergerCoherent(p.cond);
    forall i | 0 <= i < |out| ensures Perm(out[i], Pair(j.emit, ls[i], rs[i])) {
      KeysAreColumns(on, ls[i]);
      KeysAreColumns(on, rs[i]);
      MergeIsJoin(j, ls[i], rs[i]);
    }
  }

  lemma {:induction false} GpuHashJoinDelivers(env: Env, p: Plan, out: seq<seq<Row>>)
    requires p.GpuHashJoin? && WellFormed(p) && Contract(p) && Orderly(p) && Runs(env, p, out)
    ensures Perm(Flatten(out), Denote(env, p))
    decreases p, 0
  {
    var GpuHashJoin(lk, rk, proj, _, l, r) := p;
    var m := JoinFn(OnKeys(lk, rk), proj);
    var ls, rs := SideRuns(env, p, out);
    RunDelivers(env, l, ls);
    RunDelivers(env, r, rs);
    ProbedWhole(m, ls, rs, out, Denote(env, l), Denote(env, r));
  }

  lemma {:induction false} GpuAggregateDelivers(env: Env, p: Plan, out: seq<seq<Row>>)
    requires p.GpuAggregate? && WellFormed(p) && Contract(p) && Orderly(p) && Runs(env, p, out)
    ensures Perm(Flatten(out), Denote(env, p))
    decreases p, 0
  {
    var GpuAggregate(spec, _, _, i) := p;
    var g := SpecGrouping(spec);
    var ins := ChildRun(env, p, out);
    RunDelivers(env, i, ins);
    FewDisjoint(g.key, [Flatten(ins)]);
    FlattenOne(Flatten(ins));
    GroupedWhole(g, [Flatten(ins)], out, Denote(env, i));
  }

  lemma {:induction false} MoveDelivers(env: Env, p: Plan, out: seq<seq<Row>>)
    requires p.Sort? || p.Repartition? || p.Coalesce?
    requires WellFormed(p) && Contract(p) && Orderly(p) && Runs(env, p, out)
    ensures Delivers(env, p, out)
    decreases p, 0
  {
    var ins := MovedRun(env, p, out);
    RunDelivers(env, p.input, ins);
    MoveKeeps(env, p, ins, out);
  }

  lemma {:induction false} MoveKeeps(env: Env, p: Plan, ins: seq<seq<Row>>, out: seq<seq<Row>>)
    requires (p.Sort? && !HoldsStates(p.input)) || p.Repartition? || p.Coalesce?
    requires Perm(Flatten(out), Flatten(ins)) && Delivers(env, p.input, ins)
    ensures Delivers(env, p, out)
  {
    assert HoldsStates(p) == HoldsStates(p.input) && Denote(env, p) == Denote(env, p.input);
    if HoldsStates(p) {
      assert PartialOf(p) == PartialOf(p.input);
    }
  }

  lemma {:induction false} FewOrCoHashed(env: Env, cond: JoinOn, l: Plan, r: Plan, ls: seq<seq<Row>>, rs: seq<seq<Row>>)
    requires Runs(env, l, ls) && Runs(env, r, rs) && |ls| == |rs|
    requires MatchesTogether(l, r, cond)
    ensures |ls| <= 1 || CoHashed(l, r, cond)
  {
    RunCount(env, l, ls);
    RunCount(env, r, rs);
  }

  lemma {:induction false} ContractCoPartitions(env: Env, cond: JoinOn, proj: Option<seq<nat>>, l: Plan, r: Plan,
                             ls: seq<seq<Row>>, rs: seq<seq<Row>>)
    requires WellFormed(l) && WellFormed(r) && Runs(env, l, ls) && Runs(env, r, rs) && |ls| == |rs|
    requires |ls| <= 1 || CoHashed(l, r, cond)
    ensures CoPartitioned(JoinFn(cond, proj), ls, rs)
  {
    if |ls| <= 1 {
      FewCoPartitioned(JoinFn(cond, proj), ls, rs);
    } else {
      var lc, rc := CoHashedCols(l, r, cond);
      CoHashedCoPartitions(env, cond, proj, l, r, ls, rs, lc, rc);
    }
  }

  lemma {:induction false} FewCoPartitioned(m: (Row, Row) -> seq<Row>, ls: seq<seq<Row>>, rs: seq<seq<Row>>)
    requires |ls| == |rs| <= 1
    ensures CoPartitioned(m, ls, rs)
  {
  }

  lemma {:induction false} CoHashedCols(l: Plan, r: Plan, cond: JoinOn) returns (lc: seq<nat>, rc: seq<nat>)
    requires CoHashed(l, r, cond)
    ensures HashOn(l, lc) && HashOn(r, rc) && OnDetermines(cond, lc, rc)
  {
    lc, rc :| HashOn(l, lc) && HashOn(r, rc) && OnDetermines(cond, lc, rc);
  }

  lemma {:induction false} CoHashedCoPartitions(env: Env, cond: JoinOn, proj: Option<seq<nat>>, l: Plan, r: Plan,
                             ls: seq<seq<Row>>, rs: seq<seq<Row>>, lc: seq<nat>, rc: seq<nat>)
    requires WellFormed(l) && WellFormed(r) && Runs(env, l, ls) && Runs(env, r, rs) && |ls| == |rs|
    requires HashOn(l, lc) && HashOn(r, rc) && OnDetermines(cond, lc, rc)
    ensures CoPartitioned(JoinFn(cond, proj), ls, rs)
  {
    RunRouted(env, l, ls, lc);
    RunRouted(env, r, rs, rc);
    RoutedCoPartitioned(env.hash, cond, proj, lc, rc, ls, rs);
  }

  lemma {:induction false} ContractDisjoint(env: Env, g: seq<(Expr, string)>, i: Plan, ins: seq<seq<Row>>)
    requires WellFormed(i) && Runs(env, i, ins)
    requires PartCount(i) <= 1 || GroupsLocal(i, g)
    ensures KeyDisjoint(GroupKey(g), ins)
  {
    RunCount(env, i, ins);
    if PartCount(i) > 1 {
      var cols :| HashOn(i, cols) && KeyDetermines(g, cols);
      RunRouted(env, i, ins, cols);
      RoutedDisjoint(env.hash, g, cols, ins);
    }
  }

  lemma {:induction false} AggregateDelivers(env: Env, p: Plan, out: seq<seq<Row>>)
    requires p.Aggregate? && WellFormed(p) && Contract(p) && Orderly(p) && Runs(env, p, out)
    ensures Delivers(env, p, out)
    decreases p, 0
  {
    var Aggregate(m, g, aggrs, i) := p;
    var ins := ChildRun(env, p, out);
    RunDelivers(env, i, ins);
    if m.Partial? {
      PartialDelivers(env, p, ins, out);
    } else {
      ContractDisjoint(env, g, i, ins);
      if m.Final? || m.FinalPartitioned? {
        FinalDelivers(env, p, ins, out);
      } else {
        GroupedWhole(GroupingOf(m, g, aggrs), ins, out, Denote(env, i));
      }
    }
  }

  lemma {:induction false} PartialDelivers(env: Env, p: Plan, ins: seq<seq<Row>>, out: seq<seq<Row>>)
    requires p.Aggregate? && p.aggMode.Partial? && Perm(Flatten(ins), Denote(env, p.input))
    requires Grouped(GroupingOf(Partial, p.group, p.aggrs), ins, out)
    ensures Delivers(env, p, out)
  {
    FlattenPerm(out, GroupEach(GroupingOf(Partial, p.group, p.aggrs), ins));
    assert PartialOf(p) == p;
  }

  lemma {:induction false} FinalDelivers(env: Env, p: Plan, ins: seq<seq<Row>>, out: seq<seq<Row>>)
    requires p.Aggregate? && (p.aggMode.Final? || p.aggMode.FinalPartitioned?) && WellFormed(p)
    requires StatesOf(env, PartialOf(p.input), ins)
    requires Grouped(GroupingOf(p.aggMode, p.group, p.aggrs), ins, out) && KeyDisjoint(GroupKey(p.group), ins)
    ensures Perm(Flatten(out), Denote(env, p))
  {
    var partial := PartialOf(p.input);
    var parts :| Perm(Flatten(parts), Denote(env, partial.input))
      && Perm(Flatten(ins), Flatten(GroupEach(GroupingOf(Partial, partial.group, partial.aggrs), parts)));
    FinalDenotes(env, p, Flatten(ins), parts);
    GroupedWhole(GroupingOf(p.aggMode, p.group, p.aggrs), ins, out, Flatten(ins));
  }
}
