/**
 When does a plan run at all? Partition-wise joins need sides with equal partition
 counts, and an aggregate that fell back to the reference kernel refuses sums
 outside 64 bits. A plan has a run exactly when neither gets in the way.
 */
module Liveness {
  import opened Core
  import opened Bags
  import opened Groups
  import opened Orders
  import opened Merging
  import opened Plans
  import opened AggregateMeaning
  import opened Determinacy

  ghost predicate HasRun(env: Env, p: Plan) {
    exists out :: Runs(env, p, out)
  }

  // -------------------------------------------------------- building a run

  /** Sends each row to the partition its hash names. */
  function Route(hash: Row -> nat, cols: seq<nat>, n: nat, rows: seq<Row>): (parts: seq<seq<Row>>)
    requires n >= 1
    ensures |parts| == n
  {
    if rows == [] then seq(n, i => [])
    else
      var rest := Route(hash, cols, n, rows[1..]);
      var k := hash(Pick(rows[0], cols)) % n;
      rest[k := [rows[0]] + rest[k]]
  }

  lemma {:induction false} FlattenEmpty(parts: seq<seq<Row>>)
    requires forall i :: 0 <= i < |parts| ==> parts[i] == []
    ensures Flatten(parts) == []
  {
    if parts != [] {
      FlattenEmpty(parts[1..]);
    }
  }

  lemma {:induction false} FlattenInsert(parts: seq<seq<Row>>, k: nat, x: Row)
    requires k < |parts|
    ensures Perm(Flatten(parts[k := [x] + parts[k]]), [x] + Flatten(parts))
  {
    var more := parts[k := [x] + parts[k]];
    if k == 0 {
      assert more[1..] == parts[1..];
    } else {
      FlattenInsert(parts[1..], k - 1, x);
      assert more[1..] == parts[1..][k - 1 := [x] + parts[1..][k - 1]];
    }
  }

  lemma {:induction false} RoutePerm(hash: Row -> nat, cols: seq<nat>, n: nat, rows: seq<Row>)
    requires n >= 1
    ensures Perm(Flatten(Route(hash, cols, n, rows)), rows)
  {
    if rows == [] {
      FlattenEmpty(Route(hash, cols, n, rows));
    } else {
      RoutePerm(hash, cols, n, rows[1..]);
      FlattenInsert(Route(hash, cols, n, rows[1..]), hash(Pick(rows[0], cols)) % n, rows[0]);
      assert rows == [rows[0]] + rows[1..];
    }
  }

  lemma {:induction false} RouteRoutes(hash: Row -> nat, cols: seq<nat>, n: nat, rows: seq<Row>)
    requires n >= 1
    ensures RoutedBy(hash, cols, Route(hash, cols, n, rows))
  {
    if rows != [] {
      RouteRoutes(hash, cols, n, rows[1..]);
    }
  }

  lemma {:induction false} ExchangeRuns(env: Env, s: Scheme, ins: seq<seq<Row>>)
    requires s.n >= 1
    ensures exists out :: Exchanged(env, s, ins, out)
  {
    var cols := if s.HashBy? then s.cols else [];
    RoutePerm(env.hash, cols, s.n, Flatten(ins));
    RouteRoutes(env.hash, cols, s.n, Flatten(ins));
    assert Exchanged(env, s, ins, Route(env.hash, cols, s.n, Flatten(ins)));
  }

  // ------------------------------------------------- sums and reordering

  lemma {:induction false} ExactSumPerm(key: Row -> Row, input: Row -> Value, k: Row, s: seq<Row>, t: seq<Row>)
    requires Perm(s, t)
    ensures ExactSum(key, input, k, s) == ExactSum(key, input, k, t)
  {
    if s == [] {
      PermEmpty(t);
    } else {
      var front, back := PermSplit(s, t);
      ExactSumPerm(key, input, k, s[1..], front + back);
      ExactSumAppend(key, input, k, front, back);
      ExactSumAppend(key, input, k, front, [s[0]] + back);
      assert ([s[0]] + back)[1..] == back;
    }
  }

  lemma {:induction false} SumsFitPerm(g: Grouping, s: seq<Row>, t: seq<Row>)
    requires Perm(s, t) && SumsFit(g, s)
    ensures SumsFit(g, t)
  {
    forall j, k | 0 <= j < |g.aggs| && g.aggs[j].func.Sum? && k in Keys(g.key, t)
      ensures FitsI64(ExactSum(g.key, g.aggs[j].input, k, t))
    {
      ExactSumPerm(g.key, g.aggs[j].input, k, s, t);
      var r :| r in t && g.key(r) == k;
      PermMember(t, s, r);
      assert k in Keys(g.key, s);
    }
  }

  lemma {:induction false} SumsFitIff(g: Grouping, s: seq<Row>, t: seq<Row>)
    requires Perm(s, t)
    ensures SumsFit(g, s) <==> SumsFit(g, t)
  {
    if SumsFit(g, s) {
      SumsFitPerm(g, s, t);
    }
    if SumsFit(g, t) {
      SumsFitPerm(g, t, s);
    }
  }

  /** Whether an aggregation succeeds depends on the bag of its rows only. */
  lemma {:induction false} AggregatesIff(env: Env, spec: AggregateSpec, s: seq<Row>, t: seq<Row>)
    requires Perm(s, t)
    ensures Aggregates(env, spec, s) <==> Aggregates(env, spec, t)
  {
    SumsFitIff(SpecGrouping(spec), s, t);
  }

  /** Every device aggregation runs on a device: nothing falls back. */
  ghost predicate AllRan(env: Env) {
    forall spec, rows :: env.ran(spec, rows)
  }

  // --------------------------------------------------------- runnable plans

  /** A join finds the partitions it needs. */
  predicate CountsMeet(p: Plan)
    requires TwoSided(p)
  {
    && (p.HashJoin? && p.mode.CollectLeft? ==> PartCount(p.left) == 1)
    && (PartitionWise(p) ==> PartCount(p.left) == PartCount(p.right))
  }

  /** The conditions that execution checks, node by node. */
  ghost predicate Runnable(env: Env, p: Plan)
    decreases p
  {
    if Unary(p) then Runnable(env, p.input) && (p.GpuAggregate? ==> Aggregates(env, p.spec, Denote(env, p.input)))
    else if p.Scan? then true
    else Runnable(env, p.left) && Runnable(env, p.right) && CountsMeet(p)
  }

  /** What keeps the rows of every run determinate, or makes them irrelevant to success. */
  ghost predicate Settled(env: Env, p: Plan) {
    AllRan(env) || (Contract(p) && Orderly(p))
  }

  /** A well-formed plan has a run exactly when those conditions hold. */
  lemma {:induction false} RunnableIffHasRun(env: Env, p: Plan)
    requires WellFormed(p) && Settled(env, p)
    ensures Runnable(env, p) <==> HasRun(env, p)
    decreases p
  {
    if p.Scan? {
      assert Reordered(p.parts, p.parts) && Runs(env, p, p.parts);
    } else if Unary(p) {
      RunnableIffHasRun(env, p.input);
      if p.GpuAggregate? {
        GpuAggregateRuns(env, p);
      } else {
        UnaryRuns(env, p);
      }
    } else {
      RunnableIffHasRun(env, p.left);
      RunnableIffHasRun(env, p.right);
      SidesHaveRun(env, p);
    }
  }

  // ------------------------------------------------------------ one-input nodes

  lemma {:induction false} SortsRun(keys: seq<nat>, ins: seq<seq<Row>>)
    ensures exists out :: Sorts(keys, None, ins, out)
  {
    var out := Each(rows => Arranged(ColumnsOf(keys), rows), ins);
    forall i | 0 <= i < |ins| ensures Perm(out[i], ins[i]) && SortedBy(ColumnsOf(keys), out[i]) {
      ArrangedSorts(ColumnsOf(keys), ins[i]);
    }
    assert Sorts(keys, None, ins, out);
  }

  /** A node other than a device aggregate can go on from any run of its input. */
  lemma {:induction false} NodeGoesOn(env: Env, p: Plan, ins: seq<seq<Row>>)
    requires Unary(p) && !p.GpuAggregate? && WellFormed(p)
    ensures exists out :: NodeRuns(env, p, ins, out)
  {
    if RowWise(p) {
      assert NodeRuns(env, p, ins, Each(s => FlatMap(RowFn(env, p), s), ins));
    } else if p.Sort? {
      SortsRun(p.keys, ins);
      var out :| Sorts(p.keys, None, ins, out);
      assert NodeRuns(env, p, ins, out);
    } else if p.Aggregate? {
      var g := GroupingOf(p.aggMode, p.group, p.aggrs);
      assert NodeRuns(env, p, ins, GroupEach(g, ins));
    } else {
      var s := if p.Repartition? then p.scheme else RoundRobin(1);
      ExchangeRuns(env, s, ins);
      var out :| Exchanged(env, s, ins, out);
      assert NodeRuns(env, p, ins, out);
    }
  }

  lemma {:induction false} UnaryRuns(env: Env, p: Plan)
    requires Unary(p) && !p.GpuAggregate? && WellFormed(p)
    ensures HasRun(env, p) <==> HasRun(env, p.input)
  {
    if out :| Runs(env, p, out) {
      var ins := ChildRun(env, p, out);
    }
    if ins :| Runs(env, p.input, ins) {
      NodeGoesOn(env, p, ins);
      var out :| NodeRuns(env, p, ins, out);
      assert Runs(env, p, out);
    }
  }

  lemma {:induction false} SettledRows(env: Env, p: Plan, ins: seq<seq<Row>>)
    requires p.GpuAggregate? && WellFormed(p) && Settled(env, p) && Runs(env, p.input, ins)
    ensures Aggregates(env, p.spec, Flatten(ins)) <==> Aggregates(env, p.spec, Denote(env, p.input))
  {
    if !AllRan(env) {
      RunDelivers(env, p.input, ins);
      AggregatesIff(env, p.spec, Flatten(ins), Denote(env, p.input));
    }
  }

  lemma {:induction false} GpuAggregateRuns(env: Env, p: Plan)
    requires p.GpuAggregate? && WellFormed(p) && Settled(env, p)
    ensures HasRun(env, p) <==> HasRun(env, p.input) && Aggregates(env, p.spec, Denote(env, p.input))
  {
    if out :| Runs(env, p, out) {
      var ins := ChildRun(env, p, out);
      SettledRows(env, p, ins);
    }
    if Aggregates(env, p.spec, Denote(env, p.input)) {
      if ins :| Runs(env, p.input, ins) {
        SettledRows(env, p, ins);
        AggregateGoesOn(env, p, ins);
      }
    }
  }

  lemma {:induction false} AggregateGoesOn(env: Env, p: Plan, ins: seq<seq<Row>>)
    requires p.GpuAggregate? && Runs(env, p.input, ins) && Aggregates(env, p.spec, Flatten(ins))
    ensures HasRun(env, p)
  {
    var out := [Group(SpecGrouping(p.spec), Flatten(ins))];
    assert NodeRuns(env, p, ins, out);
    assert Runs(env, p, out);
  }

  // ---------------------------------------------------------------------- joins

  lemma {:induction false} JoinGoesOn(mode: JoinMode, m: (Row, Row) -> seq<Row>, ls: seq<seq<Row>>, rs: seq<seq<Row>>)
    requires |ls| == if mode.CollectLeft? then 1 else |rs|
    ensures exists out :: Joined(mode, m, ls, rs, out)
  {
    var out := seq(|rs|, i requires 0 <= i < |rs| => FlatMap(Partners(m, Opposite(mode, ls, i)), rs[i]));
    forall i | 0 <= i < |rs| ensures InOrder(Partners(m, Opposite(mode, ls, i)), rs[i], out[i]) {
      FlatMapInOrder(Partners(m, Opposite(mode, ls, i)), rs[i]);
    }
    assert Joined(mode, m, ls, rs, out);
  }

  lemma {:induction false} MergeGoesOn(j: Merger, ls: seq<seq<Row>>, rs: seq<seq<Row>>)
    requires |ls| == |rs|
    ensures exists out :: Merged(j, ls, rs, out)
  {
    var out := seq(|rs|, i requires 0 <= i < |rs| => Merge(j, ls[i], rs[i]));
    assert Merged(j, ls, rs, out);
  }

  lemma {:induction false} SidesGoOn(env: Env, p: Plan, ls: seq<seq<Row>>, rs: seq<seq<Row>>)
    requires TwoSided(p) && CountsMeet(p) && |ls| == PartCount(p.left) && |rs| == PartCount(p.right)
    ensures exists out :: SidesRun(p, ls, rs, out)
  {
    if p.HashJoin? {
      JoinGoesOn(p.mode, JoinFn(p.cond, p.projection), ls, rs);
      var out :| Joined(p.mode, JoinFn(p.cond, p.projection), ls, rs, out);
      assert SidesRun(p, ls, rs, out);
    } else if p.SortMergeJoin? {
      MergeGoesOn(MergerOf(p.cond), ls, rs);
      var out :| Merged(MergerOf(p.cond), ls, rs, out);
      assert SidesRun(p, ls, rs, out);
    } else {
      var m := JoinFn(OnKeys(p.leftKey, p.rightKey), p.projection);
      assert SidesRun(p, ls, rs, Each(s => Pair(m, s, Flatten(rs)), ls));
    }
  }

  lemma {:induction false} SidesHaveRun(env: Env, p: Plan)
    requires TwoSided(p)
    ensures HasRun(env, p) <==> HasRun(env, p.left) && HasRun(env, p.right) && CountsMeet(p)
  {
    if out :| Runs(env, p, out) {
      var ls, rs := SideRuns(env, p, out);
      RunCount(env, p.left, ls);
      RunCount(env, p.right, rs);
    }
    if CountsMeet(p) {
      if ls, rs :| Runs(env, p.left, ls) && Runs(env, p.right, rs) {
        RunCount(env, p.left, ls);
        RunCount(env, p.right, rs);
        SidesGoOn(env, p, ls, rs);
        var out :| SidesRun(p, ls, rs, out);
        assert Runs(env, p, out);
      }
    }
  }
}
