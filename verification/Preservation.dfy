/**
 The placement rule preserves meaning: whatever it returns has the same schema
 and, in every run, the same bag of rows as the plan it was given.
 */
module Preservation {
  import opened Core
  import opened Bags
  import opened Groups
  import opened Plans
  import opened Execs
  import opened Placement
  import opened Determinacy

  // ------------------------------------------------------- rows of a denotation

  lemma {:induction false} FlatMapWide(f: Row -> seq<Row>, rows: seq<Row>, width: nat)
    requires forall x, r :: x in rows && r in f(x) ==> |r| == width
    ensures forall r :: r in FlatMap(f, rows) ==> |r| == width
  {
    forall r | r in FlatMap(f, rows) ensures |r| == width {
      FlatMapMember(f, rows, r);
    }
  }

  lemma {:induction false} GroupWide(g: Grouping, rows: seq<Row>, width: nat)
    requires forall r :: |g.key(r)| + |g.aggs| == width
    ensures forall r :: r in Group(g, rows) ==> |r| == width
  {
    forall r | r in Group(g, rows) ensures |r| == width {
      GroupKeys(g, rows, r);
    }
  }

  lemma {:induction false} JoinedWide(cond: JoinOn, proj: Option<seq<nat>>, xs: seq<Row>, ys: seq<Row>, lw: nat,
                                      rw: nat)
    requires forall x :: x in xs ==> |x| == lw
    requires forall y :: y in ys ==> |y| == rw
    ensures forall r :: r in Pair(JoinFn(cond, proj), xs, ys) ==> |r| == if proj.None? then lw + rw else |proj.value|
  {
    var joined := Pair(JoinFn(cond, proj), xs, ys);
    PairedDrawn(JoinFn(cond, proj), xs, ys, joined);
    JoinWide(cond, proj, xs, ys, joined, lw, rw);
  }

  /** Denoted rows are as wide as the schema. */
  lemma {:induction false} DenoteWidth(env: Env, p: Plan)
    requires WellFormed(p)
    ensures forall r :: r in Denote(env, p) ==> |r| == |SchemaOf(p)|
    decreases p, 1
  {
    match p
    case Scan(s, parts) => FlattenWide(parts, |s|);
    case HashJoin(_, cond, proj, l, r) => SidesWidth(env, cond, proj, l, r, p);
    case SortMergeJoin(cond, l, r) => SidesWidth(env, cond, None, l, r, p);
    case Sort(_, _, i) => DenoteWidth(env, i);
    case Repartition(_, i) => DenoteWidth(env, i);
    case Coalesce(i) => DenoteWidth(env, i);
    case Aggregate(m, g, aggrs, i) => GroupWide(GroupingOf(m, g, aggrs), Denote(env, i), |SchemaOf(p)|);
    case GpuHashJoin(lk, rk, proj, _, l, r) => SidesWidth(env, OnKeys(lk, rk), proj, l, r, p);
    case GpuAggregate(spec, _, _, i) => GroupWide(SpecGrouping(spec), Denote(env, i), |SchemaOf(p)|);
    case _ => RowWiseDenotes(env, p);
  }

  lemma {:induction false} RowWiseDenotes(env: Env, p: Plan)
    requires RowWise(p) && WellFormed(p)
    ensures forall r :: r in Denote(env, p) ==> |r| == |SchemaOf(p)|
    decreases p, 0
  {
    DenoteWidth(env, p.input);
    var (f, rows) := (RowFn(env, p), Denote(env, p.input));
    forall x, r | x in rows && r in f(x) ensures |r| == |SchemaOf(p)| {
      RowFnWidth(env, p, x, r);
    }
    FlatMapWide(f, rows, |SchemaOf(p)|);
  }

  lemma {:induction false} SidesWidth(env: Env, cond: JoinOn, proj: Option<seq<nat>>, l: Plan, r: Plan, p: Plan)
    requires WellFormed(l) && WellFormed(r) && l < p && r < p
    ensures var w := if proj.None? then |SchemaOf(l)| + |SchemaOf(r)| else |proj.value|;
            forall x :: x in Pair(JoinFn(cond, proj), Denote(env, l), Denote(env, r)) ==> |x| == w
    decreases p, 0
  {
    DenoteWidth(env, l);
    DenoteWidth(env, r);
    JoinedWide(cond, proj, Denote(env, l), Denote(env, r), |SchemaOf(l)|, |SchemaOf(r)|);
  }

  // ------------------------------------------------------------- predicates

  lemma {:induction false} FlipSwaps(op: Comparison, a: Value, b: Value)
    ensures CompareValues(Flip(op), a, b) == CompareValues(op, b, a)
  {
  }

  /** A lowered predicate has the truth value of the expression on every row. */
  lemma {:induction false} LoweredPredicate(e: Expr, s: Schema, row: Row)
    requires LowerPredicate(e, s).Some?
    ensures Eval(e, row) == FromTruth(EvalPredicate(LowerPredicate(e, s).value, row))
    ensures PredicateInRange(LowerPredicate(e, s).value, |s|)
    ensures LeavesTyped(s, LowerPredicate(e, s).value)
  {
    match e
    case Binary(OpAnd, l, r) =>
      LoweredPredicate(l, s, row);
      LoweredPredicate(r, s, row);
    case Binary(OpCompare(op), l, r) =>
      if !(ColumnIndex(l).Some? && AsLiteral(r).Some?) {
        FlipSwaps(op, Eval(r, row), Eval(l, row));
      }
  }

  /** `e` writes `p` out: comparisons with the column on either side, joined by AND. */
  ghost predicate Spells(e: Expr, p: Predicate)
    decreases p
  {
    match p
    case Compare(c, op, lit) =>
      || e == Binary(OpCompare(op), Column(c), Constant(lit.AsValue()))
      || e == Binary(OpCompare(Flip(op)), Constant(lit.AsValue()), Column(c))
    case And(l, r) => e.Binary? && e.op.OpAnd? && Spells(e.left, l) && Spells(e.right, r)
  }

  /** Lowering undoes writing out, and lowers nothing else. */
  lemma {:induction false} LowersIffSpelled(e: Expr, s: Schema, p: Predicate)
    ensures LowerPredicate(e, s) == Some(p) <==> Spells(e, p) && LeavesTyped(s, p)
  {
    match p
    case And(l, r) =>
      if e.Binary? && e.op.OpAnd? {
        LowersIffSpelled(e.left, s, l);
        LowersIffSpelled(e.right, s, r);
      }
    case Compare(c, op, lit) =>
      if e.Binary? && e.op.OpCompare? {
        LiteralReads(e.left, lit);
        LiteralReads(e.right, lit);
      }
  }

  lemma {:induction false} LiteralReads(e: Expr, lit: Literal)
    ensures AsLiteral(e) == Some(lit) <==> e == Constant(lit.AsValue())
  {
  }

  // ---------------------------------------------------------- one rewrite step

  /** Same schema, still well formed, same bag. */
  ghost predicate Preserves(env: Env, p: Plan, q: Plan) {
    && SchemaOf(q) == SchemaOf(p)
    && WellFormed(q)
    && !HoldsStates(q)
    && Perm(Denote(env, q), Denote(env, p))
  }

  lemma {:induction false} LoweredFilterRows(e: Expr, proj: Option<seq<nat>>, s: Schema, cols: seq<nat>, rows: seq<Row>)
    requires LowerPredicate(e, s).Some? && cols == (if proj.Some? then proj.value else Upto(|s|))
    requires forall r :: r in rows ==> |r| == |s|
    ensures FlatMap(FilterFn(e, proj), rows) == FlatMap(PredicateFn(LowerPredicate(e, s).value, cols), rows)
  {
    var (f, g) := (FilterFn(e, proj), PredicateFn(LowerPredicate(e, s).value, cols));
    forall x | x in rows ensures f(x) == g(x) {
      LoweredPredicate(e, s, x);
      PickAll(x, |x|);
    }
    FlatMapExt(f, g, rows);
  }

  function FilterColumns(projection: Option<seq<nat>>, s: Schema): seq<nat> {
    if projection.Some? then projection.value else Upto(|s|)
  }

  lemma {:induction false} LoweredFilterShape(target: BackendKind, p: Plan)
    requires p.Filter? && LowerFilter(target, p).Ok? && LowerFilter(target, p).value.Some?
    ensures var (s, q) := (SchemaOf(p.input), LowerFilter(target, p).value.value);
            && LowerPredicate(p.condition, s).Some? && SchemaOf(q) == SchemaOf(p)
            && q == GpuFilter(LowerPredicate(p.condition, s).value, FilterColumns(p.projection, s), target, p.input)
            && ColsInRange(FilterColumns(p.projection, s), |s|)
  {
  }

  lemma {:induction false} FilterPreserves(env: Env, target: BackendKind, p: Plan)
    requires p.Filter? && WellFormed(p)
    requires LowerFilter(target, p).Ok? && LowerFilter(target, p).value.Some?
    ensures Preserves(env, p, LowerFilter(target, p).value.value)
  {
    var s := SchemaOf(p.input);
    LoweredFilterShape(target, p);
    DenoteWidth(env, p.input);
    LoweredFilterRows(p.condition, p.projection, s, FilterColumns(p.projection, s), Denote(env, p.input));
    LoweredPredicate(p.condition, s, []);
  }

  lemma {:induction false} FusePreserves(env: Env, target: BackendKind, p: Plan)
    requires p.Projection? && WellFormed(p)
    requires FuseProjection(target, p).Ok? && FuseProjection(target, p).value.Some?
    ensures Preserves(env, p, FuseProjection(target, p).value.value)
  {
    var q := FuseProjection(target, p).value.value;
    var filter := p.input;
    var (f, g, h) := (PredicateFn(filter.filter, filter.cols), ProjectFn(p.exprs), PredicateFn(q.filter, q.cols));
    forall x ensures h(x) == FlatMap(g, f(x)) {
      if EvalPredicate(filter.filter, x) == Some(true) {
        assert GroupKey(p.exprs)(Pick(x, filter.cols)) == Pick(x, q.cols);
        assert FlatMap(g, [Pick(x, filter.cols)]) == g(Pick(x, filter.cols)) + FlatMap(g, []);
      }
    }
    FlatMapFlatMap(f, g, h, Denote(env, filter.input));
  }

  /** An unambiguous projection is recovered exactly. */
  lemma {:induction false} RecoverExact(full: Schema, cols: seq<nat>)
    requires ColsInRange(cols, |full|)
    requires Recover(full, ProjectSchema(full, cols)).Some?
    ensures Recover(full, ProjectSchema(full, cols)).value == cols
  {
    var fields := ProjectSchema(full, cols);
    var found := Recover(full, fields).value;
    forall k | 0 <= k < |cols| ensures found[k] == cols[k] {
      assert cols[k] in Positions(full, fields[k]);
    }
  }

  /** The same output row, read from `probe ++ build` instead of `build ++ probe`. */
  lemma {:induction false} SwapRow(b: Row, p: Row, cols: seq<nat>)
    requires ColsInRange(cols, |b| + |p|)
    ensures Pick(b + p, cols) == Pick(p + b, Swapped(cols, |b|, |p|))
  {
  }

  lemma {:induction false} SwapMatch(cond: JoinOn, b: Row, p: Row, bs: Schema, ps: Schema)
    requires SingleKey(cond, bs, ps).Some?
    ensures var (bk, pk) := SingleKey(cond, bs, ps).value;
            Matches(cond, b, p) <==> Matches(OnKeys(pk, bk), p, b)
  {
    var (bk, pk) := SingleKey(cond, bs, ps).value;
    assert cond.on[0] == (Column(bk), Column(pk));
    assert KeysMatch(false, At(b, bk), At(p, pk)) <==> KeysMatch(false, At(p, pk), At(b, bk));
    assert OnKeys(pk, bk).on[0] == (Column(pk), Column(bk));
  }

  function JoinColumns(p: Plan): seq<nat>
    requires p.HashJoin?
  {
    if p.projection.Some? then p.projection.value else Upto(|SchemaOf(p.left)| + |SchemaOf(p.right)|)
  }

  lemma {:induction false} JoinIndicesExact(p: Plan)
    requires p.HashJoin? && WellFormed(p) && JoinIndices(p.projection, SchemaOf(p.left), SchemaOf(p.right)).Some?
    ensures JoinIndices(p.projection, SchemaOf(p.left), SchemaOf(p.right)).value == JoinColumns(p)
    ensures ColsInRange(JoinColumns(p), |SchemaOf(p.left)| + |SchemaOf(p.right)|)
  {
    if p.projection.Some? {
      RecoverExact(SchemaOf(p.left) + SchemaOf(p.right), p.projection.value);
    }
  }

  lemma {:induction false} PlaceJoinShape(target: BackendKind, probe: Plan, build: Plan, pk: nat, bk: nat,
                                          cols: seq<nat>, planned: Schema)
    ensures var placed := PlaceJoin(target, probe, build, pk, bk, cols, planned);
            placed.Ok? && placed.value.Some? ==>
              && placed.value.value == GpuHashJoin(pk, bk, Some(cols), target, probe, build)
              && pk < |SchemaOf(probe)| && bk < |SchemaOf(build)| && SchemaOf(placed.value.value) == planned
  {
  }

  lemma {:induction false} SwappedInRange(cols: seq<nat>, bl: nat, pl: nat)
    requires ColsInRange(cols, bl + pl)
    ensures ColsInRange(Swapped(cols, bl, pl), pl + bl)
  {
  }

  /** The device join that replaces a hash join: it probes with the right side. */
  function SwappedExec(target: BackendKind, p: Plan, bk: nat, pk: nat): Plan
    requires p.HashJoin?
  {
    GpuHashJoin(pk, bk, Some(Swapped(JoinColumns(p), |SchemaOf(p.left)|, |SchemaOf(p.right)|)), target, p.right, p.left)
  }

  /** A lowered hash join probes with the right side and projects what the original projected. */
  lemma {:induction false} LoweredJoinShape(target: BackendKind, p: Plan)
    requires p.HashJoin? && WellFormed(p)
    requires LowerJoin(target, p).Ok? && LowerJoin(target, p).value.Some?
    ensures SingleKey(p.cond, SchemaOf(p.left), SchemaOf(p.right)).Some?
    ensures var (bk, pk) := SingleKey(p.cond, SchemaOf(p.left), SchemaOf(p.right)).value;
            && LowerJoin(target, p).value.value == SwappedExec(target, p, bk, pk)
            && pk < |SchemaOf(p.right)| && bk < |SchemaOf(p.left)|
    ensures SchemaOf(LowerJoin(target, p).value.value) == SchemaOf(p)
  {
    var (bs, ps) := (SchemaOf(p.left), SchemaOf(p.right));
    assert SingleKey(p.cond, bs, ps).Some? && JoinIndices(p.projection, bs, ps).Some?;
    JoinIndicesExact(p);
    var (bk, pk) := SingleKey(p.cond, bs, ps).value;
    PlaceJoinShape(target, p.right, p.left, pk, bk, Swapped(JoinColumns(p), |bs|, |ps|), SchemaOf(p));
  }

  lemma {:induction false} SwappedWellFormed(target: BackendKind, p: Plan, bk: nat, pk: nat)
    requires p.HashJoin? && WellFormed(p) && pk < |SchemaOf(p.right)| && bk < |SchemaOf(p.left)|
    ensures WellFormed(SwappedExec(target, p, bk, pk))
  {
    assert ColsInRange(JoinColumns(p), |SchemaOf(p.left)| + |SchemaOf(p.right)|);
    SwappedInRange(JoinColumns(p), |SchemaOf(p.left)|, |SchemaOf(p.right)|);
  }

  /** Joining with the sides swapped and the columns renumbered joins the same rows. */
  lemma {:induction false} SwappedRows(cond: JoinOn, projection: Option<seq<nat>>, bs: Schema, ps: Schema,
                                       cols: seq<nat>,
                                       bk: nat, pk: nat, xs: seq<Row>, ys: seq<Row>)
    requires SingleKey(cond, bs, ps) == Some((bk, pk)) && ColsInRange(cols, |bs| + |ps|)
    requires cols == if projection.Some? then projection.value else Upto(|bs| + |ps|)
    requires forall x :: x in xs ==> |x| == |bs|
    requires forall y :: y in ys ==> |y| == |ps|
    ensures Perm(Pair(JoinFn(OnKeys(pk, bk), Some(Swapped(cols, |bs|, |ps|))), ys, xs), Pair(JoinFn(cond, projection), xs, ys))
  {
    var (m, n) := (JoinFn(cond, projection), JoinFn(OnKeys(pk, bk), Some(Swapped(cols, |bs|, |ps|))));
    forall b, r | b in xs && r in ys ensures m(b, r) == n(r, b) {
      SwappedPair(cond, projection, bs, ps, cols, b, r);
    }
    PairSwap(m, n, xs, ys);
  }

  lemma {:induction false} SwappedPair(cond: JoinOn, projection: Option<seq<nat>>, bs: Schema, ps: Schema,
                                       cols: seq<nat>, b: Row, r: Row)
    requires SingleKey(cond, bs, ps).Some? && ColsInRange(cols, |bs| + |ps|) && |b| == |bs| && |r| == |ps|
    requires cols == if projection.Some? then projection.value else Upto(|bs| + |ps|)
    ensures var (bk, pk) := SingleKey(cond, bs, ps).value;
            JoinFn(cond, projection)(b, r) == JoinFn(OnKeys(pk, bk), Some(Swapped(cols, |bs|, |ps|)))(r, b)
  {
    var (bk, pk) := SingleKey(cond, bs, ps).value;
    SwapMatch(cond, b, r, bs, ps);
    SwappedOut(projection, cols, b, r);
    JoinFnAt(cond, projection, b, r);
    JoinFnAt(OnKeys(pk, bk), Some(Swapped(cols, |bs|, |ps|)), r, b);
  }

  lemma {:induction false} JoinFnAt(cond: JoinOn, projection: Option<seq<nat>>, l: Row, r: Row)
    ensures JoinFn(cond, projection)(l, r) == if Matches(cond, l, r) then [Out(projection, l + r)] else []
  {
  }

  lemma {:induction false} SwappedOut(projection: Option<seq<nat>>, cols: seq<nat>, b: Row, r: Row)
    requires ColsInRange(cols, |b| + |r|) && cols == if projection.Some? then projection.value else Upto(|b| + |r|)
    ensures Out(projection, b + r) == Out(Some(Swapped(cols, |b|, |r|)), r + b)
  {
    SwapRow(b, r, cols);
    PickAll(b + r, |b| + |r|);
  }

  lemma {:induction false} JoinDenotes(env: Env, p: Plan)
    requires TwoSided(p)
    ensures Denote(env, p) == Pair(PairFn(p), Denote(env, p.left), Denote(env, p.right))
  {
  }

  lemma {:induction false} SwappedJoin(env: Env, p: Plan, target: BackendKind, bk: nat, pk: nat)
    requires p.HashJoin? && WellFormed(p)
    requires SingleKey(p.cond, SchemaOf(p.left), SchemaOf(p.right)) == Some((bk, pk))
    ensures Perm(Denote(env, SwappedExec(target, p, bk, pk)), Denote(env, p))
  {
    JoinDenotes(env, p);
    JoinDenotes(env, SwappedExec(target, p, bk, pk));
    DenoteWidth(env, p.left);
    DenoteWidth(env, p.right);
    SwappedRows(p.cond, p.projection, SchemaOf(p.left), SchemaOf(p.right), JoinColumns(p), bk, pk,
                Denote(env, p.left), Denote(env, p.right));
  }

  lemma {:induction false} JoinPreserves(env: Env, target: BackendKind, p: Plan)
    requires p.HashJoin? && WellFormed(p)
    requires LowerJoin(target, p).Ok? && LowerJoin(target, p).value.Some?
    ensures Preserves(env, p, LowerJoin(target, p).value.value)
  {
    LoweredJoinShape(target, p);
    var (bk, pk) := SingleKey(p.cond, SchemaOf(p.left), SchemaOf(p.right)).value;
    SwappedJoin(env, p, target, bk, pk);
    SwappedWellFormed(target, p, bk, pk);
  }

  lemma {:induction false} StripSortKeeps(env: Env, p: Plan)
    requires WellFormed(p) && !HoldsStates(p)
    ensures var q := StripSort(p);
            SchemaOf(q) == SchemaOf(p) && WellFormed(q) && !HoldsStates(q) && Denote(env, q) == Denote(env, p)
  {
  }

  lemma {:induction false} StripSortPlaced(p: Plan, cols: seq<nat>)
    ensures var q := StripSort(p);
            SchemaOf(q) == SchemaOf(p) && PartCount(q) == PartCount(p) && (Contract(p) ==> Contract(q))
    ensures HashOn(p, cols) ==> HashOn(StripSort(p), cols)
  {
  }

  /** The device join means what the merge join means; where its order went is another matter. */
  lemma {:induction false} SortMergePreserves(env: Env, target: BackendKind, p: Plan)
    requires p.SortMergeJoin? && WellFormed(p)
    requires LowerSortMergeJoin(target, p).Ok? && LowerSortMergeJoin(target, p).value.Some?
    ensures Preserves(env, p, LowerSortMergeJoin(target, p).value.value)
  {
    LoweredMergeShape(target, p);
    StripSortKeeps(env, p.left);
    StripSortKeeps(env, p.right);
    var q := LowerSortMergeJoin(target, p).value.value;
    MergedJoin(env, p.left, p.right, StripSort(p.left), StripSort(p.right), q.leftKey, q.rightKey, target);
  }

  lemma {:induction false} MergedJoin(env: Env, l: Plan, r: Plan, l': Plan, r': Plan, lk: nat, rk: nat,
                                      target: BackendKind)
    requires WellFormed(l') && WellFormed(r') && !HoldsStates(l') && !HoldsStates(r')
    requires SchemaOf(l') == SchemaOf(l) && SchemaOf(r') == SchemaOf(r) && lk < |SchemaOf(l')| && rk < |SchemaOf(r')|
    requires Denote(env, l') == Denote(env, l) && Denote(env, r') == Denote(env, r)
    ensures Preserves(env, SortMergeJoin(OnKeys(lk, rk), l, r), GpuHashJoin(lk, rk, None, target, l', r'))
  {
    JoinDenotes(env, GpuHashJoin(lk, rk, None, target, l', r'));
    JoinDenotes(env, SortMergeJoin(OnKeys(lk, rk), l, r));
    SameJoinSchema(lk, rk, target, l', r');
    SameJoinSchema(lk, rk, target, l, r);
    DeviceJoinFormed(lk, rk, target, l', r');
  }

  lemma {:induction false} SameJoinSchema(lk: nat, rk: nat, target: BackendKind, l: Plan, r: Plan)
    ensures SchemaOf(GpuHashJoin(lk, rk, None, target, l, r)) == SchemaOf(l) + SchemaOf(r)
    ensures SchemaOf(SortMergeJoin(OnKeys(lk, rk), l, r)) == SchemaOf(l) + SchemaOf(r)
  {
  }

  lemma {:induction false} DeviceJoinFormed(lk: nat, rk: nat, target: BackendKind, l: Plan, r: Plan)
    requires WellFormed(l) && WellFormed(r) && !HoldsStates(l) && !HoldsStates(r)
    requires lk < |SchemaOf(l)| && rk < |SchemaOf(r)|
    ensures WellFormed(GpuHashJoin(lk, rk, None, target, l, r)) && !HoldsStates(GpuHashJoin(lk, rk, None, target, l, r))
  {
  }

  lemma {:induction false} LoweredMergeShape(target: BackendKind, p: Plan)
    requires p.SortMergeJoin?
    requires LowerSortMergeJoin(target, p).Ok? && LowerSortMergeJoin(target, p).value.Some?
    ensures var q := LowerSortMergeJoin(target, p).value.value;
            && q.GpuHashJoin? && p.cond == OnKeys(q.leftKey, q.rightKey) && SchemaOf(q) == SchemaOf(p)
            && q == GpuHashJoin(q.leftKey, q.rightKey, None, target, StripSort(p.left), StripSort(p.right))
            && q.leftKey < |SchemaOf(q.left)| && q.rightKey < |SchemaOf(q.right)|
  {
    var q := LowerSortMergeJoin(target, p).value.value;
    assert p.cond.on == [(Column(q.leftKey), Column(q.rightKey))];
  }

  // -------------------------------------------------------------- aggregates

  lemma {:induction false} StateChain(p: Plan)
    requires WellFormed(p) && HoldsStates(p)
    ensures WellFormed(PartialOf(p))
    ensures SkipExchanges(p) == PartialOf(p)
    ensures Contract(p) ==> Contract(PartialOf(p).input)
  {
    match p
    case Repartition(_, i) => StateChain(i);
    case Coalesce(i) => StateChain(i);
    case _ =>
  }

  /** A lowered aggregate reads the same key and the same inputs. */
  lemma {:induction false} SpecAgrees(agg: Plan, rows: seq<Row>)
    requires agg.Aggregate? && !agg.aggMode.Final? && !agg.aggMode.FinalPartitioned?
    requires LowerSpec(agg).Some?
    ensures SameGrouping(GroupingOf(agg.aggMode, agg.group, agg.aggrs), SpecGrouping(LowerSpec(agg).value), rows)
  {
    var (g, g') := (GroupingOf(agg.aggMode, agg.group, agg.aggrs), SpecGrouping(LowerSpec(agg).value));
    forall r | r in rows ensures g.key(r) == g'.key(r) {
      assert g.key(r)[0] == g'.key(r)[0];
    }
    forall j, r | 0 <= j < |g.aggs| && r in rows ensures g.aggs[j].input(r) == g'.aggs[j].input(r) {
      assert LowerableAggr(agg.aggrs[j], SchemaOf(agg.input));
      assert g.aggs[j].input == InputOf(agg.aggrs[j]);
      assert g'.aggs[j].input == StateCell(agg.aggrs[j].arg.index);
    }
    forall j | 0 <= j < |g.aggs| ensures g.aggs[j].func == g'.aggs[j].func && g.aggs[j].merging == g'.aggs[j].merging {
    }
  }

  lemma {:induction false} SourceShape(p: Plan)
    requires p.Aggregate? && WellFormed(p) && AggregateSource(p).Some?
    ensures var agg := AggregateSource(p).value;
            && WellFormed(agg) && !HoldsStates(agg.input) && !agg.aggMode.Final? && !agg.aggMode.FinalPartitioned?
            && (Contract(p) ==> Contract(agg.input))
  {
    if p.aggMode.Final? || p.aggMode.FinalPartitioned? {
      StateChain(p.input);
    }
  }

  /** The aggregate whose input is taken over has the same groups as the one replaced. */
  lemma {:induction false} SourceAgrees(env: Env, p: Plan)
    requires p.Aggregate? && WellFormed(p) && AggregateSource(p).Some?
    ensures var agg := AggregateSource(p).value;
            Perm(Group(GroupingOf(agg.aggMode, agg.group, agg.aggrs), Denote(env, agg.input)), Denote(env, p))
  {
    if p.aggMode.Final? || p.aggMode.FinalPartitioned? {
      StateChain(p.input);
      FinalIsOnePass(env, p);
    }
  }

  lemma {:induction false} LoweredAggregateShape(target: BackendKind, p: Plan)
    requires p.Aggregate?
    requires LowerAggregate(target, p).Ok? && LowerAggregate(target, p).value.Some?
    ensures AggregateSource(p).Some?
    ensures var agg := AggregateSource(p).value;
            && LowerSpec(agg).Some?
            && var source := if PartCount(agg.input) > 1 then Coalesce(agg.input) else agg.input;
            && LowerAggregate(target, p).value.value == GpuAggregate(LowerSpec(agg).value, SchemaOf(p), target, source)
            && SpecTyped(SchemaOf(agg.input), LowerSpec(agg).value)
            && |SchemaOf(p)| == 1 + |LowerSpec(agg).value.aggregates|
  {
  }

  /** The device aggregate over the same rows has the groups of the aggregate it was lowered from. */
  lemma {:induction false} SpecDenotes(agg: Plan, rows: seq<Row>)
    requires agg.Aggregate? && !agg.aggMode.Final? && !agg.aggMode.FinalPartitioned? && LowerSpec(agg).Some?
    ensures Perm(Group(SpecGrouping(LowerSpec(agg).value), rows), Group(GroupingOf(agg.aggMode, agg.group, agg.aggrs), rows))
  {
    SpecAgrees(agg, rows);
    GroupExt(GroupingOf(agg.aggMode, agg.group, agg.aggrs), SpecGrouping(LowerSpec(agg).value), rows);
  }

  lemma {:induction false} DeviceDenotes(env: Env, q: Plan, source: Plan)
    requires q.GpuAggregate? && (q.input == source || q.input == Coalesce(source))
    ensures Denote(env, q) == Group(SpecGrouping(q.spec), Denote(env, source))
  {
    assert Denote(env, Coalesce(source)) == Denote(env, source);
  }

  lemma {:induction false} DeviceAggregateFits(q: Plan, source: Plan)
    requires q.GpuAggregate? && (q.input == source || q.input == Coalesce(source))
    requires WellFormed(source) && !HoldsStates(source)
    requires SpecTyped(SchemaOf(source), q.spec) && |q.schema| == 1 + |q.spec.aggregates|
    ensures WellFormed(q) && SchemaOf(q) == q.schema && !HoldsStates(q) && PartCount(q) == 1
    ensures Contract(source) ==> Contract(q)
  {
    assert WellFormed(Coalesce(source)) && !HoldsStates(Coalesce(source)) && SchemaOf(Coalesce(source)) == SchemaOf(source);
    assert Contract(source) ==> Contract(Coalesce(source));
  }

  lemma {:induction false} AggregatePreserves(env: Env, target: BackendKind, p: Plan)
    requires p.Aggregate? && WellFormed(p)
    requires LowerAggregate(target, p).Ok? && LowerAggregate(target, p).value.Some?
    ensures Preserves(env, p, LowerAggregate(target, p).value.value)
  {
    LoweredAggregateShape(target, p);
    SourceShape(p);
    var (q, agg) := (LowerAggregate(target, p).value.value, AggregateSource(p).value);
    DeviceAggregateFits(q, agg.input);
    DeviceDenotes(env, q, agg.input);
    SourceAgrees(env, p);
    SpecDenotes(agg, Denote(env, agg.input));
  }

  lemma {:induction false} AggregateKeepsContract(target: BackendKind, p: Plan)
    requires p.Aggregate? && WellFormed(p)
    requires LowerAggregate(target, p).Ok? && LowerAggregate(target, p).value.Some?
    ensures PartCount(LowerAggregate(target, p).value.value) == 1
    ensures Contract(p) ==> Contract(LowerAggregate(target, p).value.value)
  {
    LoweredAggregateShape(target, p);
    SourceShape(p);
    DeviceAggregateFits(LowerAggregate(target, p).value.value, AggregateSource(p).value.input);
  }
}
