/**
 When the placement rule lowers a join or an aggregate, said on the schemas and
 expressions of a well-formed plan. The rule's own comparison of the rewritten
 schema with the planned one never decides: the two always agree.
 */
module Decisions {
  import opened Core
  import opened Plans
  import opened Execs
  import opened Placement
  import opened Preservation

  predicate Lowers(target: BackendKind, p: Plan) {
    Lowered(target, p).Ok? && Lowered(target, p).value.Some?
  }

  // ---------------------------------------------------------------- hash joins

  /** No projected field occurs twice among the joined fields. */
  predicate Unambiguous(full: Schema, cols: seq<nat>)
    requires ColsInRange(cols, |full|)
  {
    forall k, i :: 0 <= k < |cols| && 0 <= i < |full| && full[i] == full[cols[k]] ==> i == cols[k]
  }

  /** An inner equi-join on one pair of plain `Int64` columns: no residual filter, `NULL` equal to nothing. */
  predicate IntColumnPair(cond: JoinOn, ls: Schema, rs: Schema) {
    && cond.filter == None && !cond.nullEqualsNull && |cond.on| == 1
    && cond.on[0].0.Column? && cond.on[0].0.index < |ls| && ls[cond.on[0].0.index].dtype == Int64
    && cond.on[0].1.Column? && cond.on[0].1.index < |rs| && rs[cond.on[0].1.index].dtype == Int64
  }

  /** The key pair the rule finds is that pair, whatever the two column numbers are. */
  lemma {:induction false} SingleKeyIff(cond: JoinOn, ls: Schema, rs: Schema)
    requires CondInRange(cond, |ls|, |rs|)
    ensures SingleKey(cond, ls, rs)
         == if IntColumnPair(cond, ls, rs) then Some((cond.on[0].0.index, cond.on[0].1.index)) else None
  {
    if |cond.on| == 1 {
      assert InRange(cond.on[0].0, |ls|) && InRange(cond.on[0].1, |rs|);
    }
  }

  /** One `Int64` column per side, and a projection that can be read back from its fields. */
  predicate JoinLowerable(cond: JoinOn, projection: Option<seq<nat>>, bs: Schema, ps: Schema)
    requires ProjInRange(projection, |bs| + |ps|)
  {
    && IntColumnPair(cond, bs, ps)
    && (projection.Some? ==> projection.value != [] && Unambiguous(bs + ps, projection.value))
  }

  lemma {:induction false} OnlyPosition(full: Schema, c: nat)
    requires c < |full|
    ensures |Positions(full, full[c])| == 1 <==> forall i :: 0 <= i < |full| && full[i] == full[c] ==> i == c
  {
    var found := Positions(full, full[c]);
    assert c in found;
    if |found| == 1 {
      forall i | 0 <= i < |full| && full[i] == full[c] ensures i == c {
        assert i in found;
      }
    }
    if |found| > 1 {
      var other := if found[0] == c then found[1] else found[0];
      assert other in found && other != c;
    }
  }

  lemma {:induction false} RecoverIff(full: Schema, cols: seq<nat>)
    requires ColsInRange(cols, |full|)
    ensures Recover(full, ProjectSchema(full, cols)).Some? <==> Unambiguous(full, cols)
  {
    forall k | 0 <= k < |cols|
      ensures |Positions(full, ProjectSchema(full, cols)[k])| == 1
         <==> forall i :: 0 <= i < |full| && full[i] == full[cols[k]] ==> i == cols[k]
    {
      OnlyPosition(full, cols[k]);
    }
  }

  /** Re-expressed over the swapped sides, a projection picks the same fields. */
  lemma {:induction false} SwappedSchema(bs: Schema, ps: Schema, cols: seq<nat>)
    requires ColsInRange(cols, |bs| + |ps|)
    ensures ProjectSchema(ps + bs, Swapped(cols, |bs|, |ps|)) == ProjectSchema(bs + ps, cols)
  {
  }

  lemma {:induction false} WholeSchema(s: Schema)
    ensures ProjectSchema(s, Upto(|s|)) == s
  {
  }

  lemma {:induction false} PlaceJoinOutcome(target: BackendKind, probe: Plan, build: Plan, pk: nat, bk: nat,
                                            cols: seq<nat>, planned: Schema)
    requires IntKey(SchemaOf(probe), pk) && IntKey(SchemaOf(build), bk)
    requires ColsInRange(cols, |SchemaOf(probe)| + |SchemaOf(build)|)
    requires ProjectSchema(SchemaOf(probe) + SchemaOf(build), cols) == planned
    ensures var placed := PlaceJoin(target, probe, build, pk, bk, cols, planned);
            placed == if cols == [] then Err(PlanError) else Ok(Some(GpuHashJoin(pk, bk, Some(cols), target, probe, build)))
  {
    assert SchemaOf(GpuHashJoin(pk, bk, Some(cols), target, probe, build)) == ProjectSchema(SchemaOf(probe) + SchemaOf(build), cols);
  }

  lemma {:induction false} KeysInRange(cond: JoinOn, ls: Schema, rs: Schema)
    requires CondInRange(cond, |ls|, |rs|) && SingleKey(cond, ls, rs).Some?
    ensures IntKey(ls, SingleKey(cond, ls, rs).value.0) && IntKey(rs, SingleKey(cond, ls, rs).value.1)
  {
    assert InRange(cond.on[0].0, |ls|) && InRange(cond.on[0].1, |rs|);
  }

  /** What becomes of a recognised join whose projection can be read back. */
  lemma {:induction false} RecognisedJoin(target: BackendKind, p: Plan)
    requires p.HashJoin? && WellFormed(p)
    requires SingleKey(p.cond, SchemaOf(p.left), SchemaOf(p.right)).Some?
    requires JoinIndices(p.projection, SchemaOf(p.left), SchemaOf(p.right)).Some?
    ensures var (bk, pk) := SingleKey(p.cond, SchemaOf(p.left), SchemaOf(p.right)).value;
            LowerJoin(target, p) == if p.projection == Some([]) then Err(PlanError) else Ok(Some(SwappedExec(target, p, bk, pk)))
  {
    var (bs, ps) := (SchemaOf(p.left), SchemaOf(p.right));
    var (bk, pk) := SingleKey(p.cond, bs, ps).value;
    KeysInRange(p.cond, bs, ps);
    JoinIndicesExact(p);
    SwappedSchema(bs, ps, JoinColumns(p));
    SwappedInRange(JoinColumns(p), |bs|, |ps|);
    WholeSchema(bs + ps);
    PlaceJoinOutcome(target, p.right, p.left, pk, bk, Swapped(JoinColumns(p), |bs|, |ps|), SchemaOf(p));
  }

  lemma {:induction false} IndicesIff(projection: Option<seq<nat>>, bs: Schema, ps: Schema)
    requires ProjInRange(projection, |bs| + |ps|)
    ensures JoinIndices(projection, bs, ps).Some? <==> (projection.Some? ==> Unambiguous(bs + ps, projection.value))
  {
    if projection.Some? {
      RecoverIff(bs + ps, projection.value);
    }
  }

  /** A hash join is lowered on one condition, and refused on another. */
  lemma {:induction false} JoinLowersIff(target: BackendKind, p: Plan)
    requires p.HashJoin? && WellFormed(p)
    ensures Lowers(target, p) <==> JoinLowerable(p.cond, p.projection, SchemaOf(p.left), SchemaOf(p.right))
    ensures Lowered(target, p).Err? <==>
      IntColumnPair(p.cond, SchemaOf(p.left), SchemaOf(p.right)) && p.projection == Some([])
    ensures Lowers(target, p) ==> Lowered(target, p).value.value.GpuHashJoin?
  {
    var (bs, ps) := (SchemaOf(p.left), SchemaOf(p.right));
    IndicesIff(p.projection, bs, ps);
    SingleKeyIff(p.cond, bs, ps);
    if SingleKey(p.cond, bs, ps).Some? && JoinIndices(p.projection, bs, ps).Some? {
      RecognisedJoin(target, p);
    }
  }

  // --------------------------------------------------------------- merge joins

  lemma {:induction false} PlaceMergeOutcome(target: BackendKind, left: Plan, right: Plan, cond: JoinOn)
    requires CondInRange(cond, |SchemaOf(left)|, |SchemaOf(right)|)
    ensures var placed := PlaceMerge(target, left, right, cond, SchemaOf(left) + SchemaOf(right));
            placed.Ok? && (placed.value.Some? <==> SingleKey(cond, SchemaOf(left), SchemaOf(right)).Some?)
            && (placed.value.Some? ==> placed.value.value.GpuHashJoin?)
  {
    var (ls, rs) := (SchemaOf(left), SchemaOf(right));
    if SingleKey(cond, ls, rs).Some? {
      KeysInRange(cond, ls, rs);
      var (lk, rk) := SingleKey(cond, ls, rs).value;
      assert NewHashJoin(left, right, lk, rk, target).Ok?;
    }
  }

  /** What a merge join reads once the sort it does not need is gone; a sort with a limit is needed. */
  function BelowSort(p: Plan): Plan {
    match p
    case Sort(_, None, i) => i
    case _ => p
  }

  /** A merge join is lowered exactly on one plain `Int64` key per side, and never refused. */
  lemma {:induction false} MergeLowersIff(target: BackendKind, p: Plan)
    requires p.SortMergeJoin? && WellFormed(p)
    ensures Lowered(target, p).Ok?
    ensures Lowers(target, p) <==> IntColumnPair(p.cond, SchemaOf(p.left), SchemaOf(p.right))
    ensures Lowers(target, p) ==>
      Lowered(target, p).value.value
      == GpuHashJoin(p.cond.on[0].0.index, p.cond.on[0].1.index, None, target, BelowSort(p.left), BelowSort(p.right))
  {
    StripSortPlaced(p.left, []);
    StripSortPlaced(p.right, []);
    SingleKeyIff(p.cond, SchemaOf(p.left), SchemaOf(p.right));
    if Lowers(target, p) {
      LoweredMergeShape(target, p);
    }
    PlaceMergeOutcome(target, StripSort(p.left), StripSort(p.right), p.cond);
  }

  // ---------------------------------------------------------------- aggregates

  /** The aggregate that reads the raw rows: the `Partial` below a `Final`, else the node itself. */
  function RawAggregate(p: Plan): (a: Plan)
    requires p.Aggregate? && WellFormed(p)
    ensures a.Aggregate?
  {
    if p.aggMode.Final? || p.aggMode.FinalPartitioned? then PartialOf(p.input) else p
  }

  /** One plain `Int64` key and plain, unfiltered, numeric inputs. */
  predicate AggregateLowerable(a: Plan)
    requires a.Aggregate?
  {
    var s := SchemaOf(a.input);
    && |a.group| == 1 && a.group[0].0.Column? && FieldAt(s, a.group[0].0.index).dtype == Int64
    && forall j :: 0 <= j < |a.aggrs| ==>
         && a.aggrs[j].filter == None && a.aggrs[j].arg.Column?
         && (FieldAt(s, a.aggrs[j].arg.index).dtype == Int64 || FieldAt(s, a.aggrs[j].arg.index).dtype == Float64)
  }

  lemma {:induction false} SpecOfTyped(agg: Plan)
    requires agg.Aggregate? && WellFormed(agg) && !agg.aggMode.Final? && !agg.aggMode.FinalPartitioned?
    requires LowerSpec(agg).Some?
    ensures SpecTyped(SchemaOf(agg.input), LowerSpec(agg).value)
  {
    var s := SchemaOf(agg.input);
    assert InRange(agg.group[0].0, |s|);
    forall j | 0 <= j < |agg.aggrs|
      ensures agg.aggrs[j].arg.Column? && agg.aggrs[j].arg.index < |s| && Aggregable(s[agg.aggrs[j].arg.index].dtype)
    {
      assert LowerableAggr(agg.aggrs[j], s) && InRange(agg.aggrs[j].arg, |s|);
    }
  }

  lemma {:induction false} ChainSchema(p: Plan)
    requires HoldsStates(p)
    ensures SchemaOf(p) == SchemaOf(PartialOf(p))
  {
    match p
    case Repartition(_, i) => ChainSchema(i);
    case Coalesce(i) => ChainSchema(i);
    case _ =>
  }

  /** The types a phase that reads raw rows gives its output. */
  lemma {:induction false} RawTypes(a: Plan)
    requires a.Aggregate? && WellFormed(a) && !a.aggMode.Final? && !a.aggMode.FinalPartitioned? && LowerSpec(a).Some?
    ensures SpecTyped(SchemaOf(a.input), LowerSpec(a).value)
    ensures SameTypes(SchemaOf(a), OutputSchema(SchemaOf(a.input), LowerSpec(a).value).value)
  {
    SpecOfTyped(a);
    var (s, out, types) := (SchemaOf(a.input), SchemaOf(a), OutputSchema(SchemaOf(a.input), LowerSpec(a).value).value);
    forall i | 0 <= i < |out| ensures out[i].dtype == types[i].dtype {
      if i > 0 {
        assert LowerableAggr(a.aggrs[i - 1], s);
        assert out[i] == AggField(a.aggMode, 1, a.aggrs[i - 1], i - 1, s);
      }
    }
  }

  /** Merging states keeps their types. */
  lemma {:induction false} FinalTypes(p: Plan)
    requires p.Aggregate? && WellFormed(p) && (p.aggMode.Final? || p.aggMode.FinalPartitioned?)
    ensures SameTypes(SchemaOf(p), SchemaOf(PartialOf(p.input)))
  {
    ChainSchema(p.input);
    var (s, out) := (SchemaOf(p.input), SchemaOf(p));
    assert |s| == |p.group| + |p.aggrs| == |out|;
    forall i | 0 <= i < |out| ensures out[i].dtype == s[i].dtype {
      if i < |p.group| {
        assert p.group[i].0 == Column(i);
      } else {
        assert out[i] == AggField(p.aggMode, |p.group|, p.aggrs[i - |p.group|], i - |p.group|, s);
      }
    }
  }

  lemma {:induction false} RawSource(p: Plan)
    requires p.Aggregate? && WellFormed(p)
    ensures AggregateSource(p) == if p.aggMode.Partial? then None else Some(RawAggregate(p))
    ensures WellFormed(RawAggregate(p)) && !RawAggregate(p).aggMode.Final? && !RawAggregate(p).aggMode.FinalPartitioned?
  {
    if p.aggMode.Final? || p.aggMode.FinalPartitioned? {
      StateChain(p.input);
    }
  }

  lemma {:induction false} SpecIff(a: Plan)
    requires a.Aggregate?
    ensures LowerSpec(a).Some? <==> AggregateLowerable(a)
  {
  }

  /** With a typed specification and the planned types, the constructors succeed. */
  lemma {:induction false} PlacedAggregate(target: BackendKind, source: Plan, spec: AggregateSpec, planned: Schema)
    requires SpecTyped(SchemaOf(source), spec) && SameTypes(planned, OutputSchema(SchemaOf(source), spec).value)
    ensures NewAggregate(source, spec, target).Ok? && NewAggregate(source, spec, target).value.GpuAggregate?
    ensures WithOutputSchema(NewAggregate(source, spec, target).value, planned) == Ok(GpuAggregate(spec, planned, target, source))
  {
  }

  lemma {:induction false} AggregateOutcome(target: BackendKind, p: Plan, a: Plan)
    requires p.Aggregate? && AggregateSource(p) == Some(a) && LowerSpec(a).Some?
    requires SpecTyped(SchemaOf(a.input), LowerSpec(a).value)
    requires SameTypes(SchemaOf(p), OutputSchema(SchemaOf(a.input), LowerSpec(a).value).value)
    ensures LowerAggregate(target, p).Ok? && LowerAggregate(target, p).value.Some?
      && LowerAggregate(target, p).value.value.GpuAggregate?
  {
    PlacedAggregate(target, a.input, LowerSpec(a).value, SchemaOf(p));
    assert SchemaOf(Coalesce(a.input)) == SchemaOf(a.input);
    PlacedAggregate(target, Coalesce(a.input), LowerSpec(a).value, SchemaOf(p));
  }

  /** An aggregate is lowered exactly when it delivers results and its raw phase is simple enough; never refused. */
  lemma {:induction false} AggregateLowersIff(target: BackendKind, p: Plan)
    requires p.Aggregate? && WellFormed(p)
    ensures Lowered(target, p).Ok?
    ensures Lowers(target, p) <==> !p.aggMode.Partial? && AggregateLowerable(RawAggregate(p))
    ensures Lowers(target, p) ==> Lowered(target, p).value.value.GpuAggregate?
  {
    RawSource(p);
    var a := RawAggregate(p);
    SpecIff(a);
    if !p.aggMode.Partial? && AggregateLowerable(a) {
      RawTypes(a);
      if p.aggMode.Final? || p.aggMode.FinalPartitioned? {
        FinalTypes(p);
      }
      AggregateOutcome(target, p, a);
    }
  }
}
