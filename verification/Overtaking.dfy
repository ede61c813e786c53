/**
 What happens where the ordering contract is broken: a merge join left on the CPU
 directly above a node that promises no order. Its runs all deliver the join if
 and only if no left row with a match can be overtaken by a row with a greater
 key. A stack of two merge joins shows that placement does lose rows this way.
 */
module Overtaking {
  import opened Core
  import opened Bags
  import opened Orders
  import opened Merging
  import opened Plans
  import opened Placement
  import opened Determinacy
  import opened Decisions
  import opened Refinement
  import opened Soundness
  import opened Liveness
  import opened Stranding
  import opened Refusal

  // -------------------------------------------------------- nodes without order

  /** The node's partitions come in any order. */
  predicate Loose(p: Plan) {
    p.Scan? || p.Repartition? || p.Coalesce? || p.Aggregate? || p.GpuAggregate? || p.GpuHashJoin?
  }

  lemma {:induction false} ExchangedShuffles(env: Env, s: Scheme, ins: seq<seq<Row>>, out: seq<seq<Row>>,
                                             out': seq<seq<Row>>)
    requires Exchanged(env, s, ins, out) && Reordered(out, out')
    ensures Exchanged(env, s, ins, out')
  {
    FlattenPerm(out', out);
    if s.HashBy? {
      ReorderedRouted(env.hash, out, out', s.cols);
    }
  }

  lemma {:induction false} NodeShuffles(env: Env, p: Plan, ins: seq<seq<Row>>, out: seq<seq<Row>>, out': seq<seq<Row>>)
    requires Unary(p) && Loose(p) && NodeRuns(env, p, ins, out) && Reordered(out, out')
    ensures NodeRuns(env, p, ins, out')
  {
    if p.Repartition? {
      ExchangedShuffles(env, p.scheme, ins, out, out');
    } else if p.Coalesce? {
      ExchangedShuffles(env, RoundRobin(1), ins, out, out');
    }
  }

  /** A run of such a node in another order is a run too. */
  lemma {:induction false} LooseShuffles(env: Env, p: Plan, out: seq<seq<Row>>, out': seq<seq<Row>>)
    requires Loose(p) && Runs(env, p, out) && Reordered(out, out')
    ensures Runs(env, p, out')
  {
    if Unary(p) {
      var ins := ChildRun(env, p, out);
      NodeShuffles(env, p, ins, out, out');
    } else if p.GpuHashJoin? {
      var ls, rs := SideRuns(env, p, out);
      assert SidesRun(p, ls, rs, out');
    }
  }

  // ------------------------------------------------------------ runs that lose

  /** Every run delivers the plan's rows. */
  ghost predicate AlwaysDelivers(env: Env, p: Plan) {
    forall out :: Runs(env, p, out) ==> Perm(Flatten(out), Denote(env, p))
  }

  /** Rows of some left partition can overtake each other. */
  ghost predicate PartsOvertake(j: Merger, ls: seq<seq<Row>>, rs: seq<seq<Row>>) {
    |ls| == |rs| && exists i :: 0 <= i < |ls| && CanOvertake(j, ls[i], rs[i])
  }

  /** They can in some run of the sides. */
  ghost predicate MayOvertake(env: Env, j: Merger, l: Plan, r: Plan) {
    exists ls, rs :: Runs(env, l, ls) && Runs(env, r, rs) && PartsOvertake(j, ls, rs)
  }

  lemma {:induction false} SmallerParts(s: seq<seq<Row>>, t: seq<seq<Row>>, k: nat)
    requires |s| == |t| && k <= |s| && forall i :: 0 <= i < |s| ==> |s[i]| <= |t[i]|
    ensures |Flatten(s)| <= |Flatten(t)|
    ensures k < |s| && |s[k]| < |t[k]| ==> |Flatten(s)| < |Flatten(t)|
  {
    if s != [] {
      SmallerParts(s[1..], t[1..], if k == 0 then 0 else k - 1);
    }
  }

  /** A merge join over unordered left rows, its right side sorted. */
  ghost predicate Exposed(p: Plan) {
    && p.SortMergeJoin? && WellFormed(p) && Contract(p) && Loose(p.left) && Orderly(p.left) && Orderly(p.right)
    && OnColumns(p.cond.on) && OrderOn(p.right, RightCols(p.cond.on))
  }

  lemma {:induction false} RightSorted(env: Env, p: Plan, rs: seq<seq<Row>>)
    requires Exposed(p) && Runs(env, p.right, rs)
    ensures forall i :: 0 <= i < |rs| ==> SortedBy(MergerOf(p.cond).rightKey, rs[i])
  {
    RunOrdered(env, p.right, rs, RightCols(p.cond.on));
    forall i | 0 <= i < |rs| ensures SortedBy(MergerOf(p.cond).rightKey, rs[i]) {
      KeysAreColumns(p.cond.on, rs[i]);
    }
  }

  /** Merged part by part without loss, the sides give the plan's rows. */
  lemma {:induction false} PairedDelivers(env: Env, p: Plan, ls: seq<seq<Row>>, rs: seq<seq<Row>>, out: seq<seq<Row>>)
    requires Exposed(p) && Runs(env, p.left, ls) && Runs(env, p.right, rs)
      && PairedParts(JoinFn(p.cond, None), ls, rs, out)
    ensures Perm(Flatten(out), Denote(env, p))
  {
    RunDelivers(env, p.left, ls);
    RunDelivers(env, p.right, rs);
    FewOrCoHashed(env, p.cond, p.left, p.right, ls, rs);
    ContractCoPartitions(env, p.cond, None, p.left, p.right, ls, rs);
    PairwiseWhole(JoinFn(p.cond, None), ls, rs, out, Denote(env, p.left), Denote(env, p.right));
  }

  lemma {:induction false} SafeRun(env: Env, p: Plan, out: seq<seq<Row>>)
    requires Exposed(p) && !MayOvertake(env, MergerOf(p.cond), p.left, p.right) && Runs(env, p, out)
    ensures Perm(Flatten(out), Denote(env, p))
  {
    var j := MergerOf(p.cond);
    var ls, rs := SideRuns(env, p, out);
    RightSorted(env, p, rs);
    MergerCoherent(p.cond);
    PartsKeep(j, ls, rs, out);
    PairedDelivers(env, p, ls, rs, out);
  }

  lemma {:induction false} PartsKeep(j: Merger, ls: seq<seq<Row>>, rs: seq<seq<Row>>, out: seq<seq<Row>>)
    requires Merged(j, ls, rs, out) && j.Coherent() && !PartsOvertake(j, ls, rs)
    requires forall i :: 0 <= i < |rs| ==> SortedBy(j.rightKey, rs[i])
    ensures PairedParts(j.emit, ls, rs, out)
  {
    forall i | 0 <= i < |out| ensures Perm(out[i], Pair(j.emit, ls[i], rs[i])) {
      InAnyOrder(j, ls[i], ls[i], rs[i]);
      MergeKeeps(j, ls[i], rs[i]);
    }
  }

  function MergeEach(j: Merger, ls: seq<seq<Row>>, rs: seq<seq<Row>>): (out: seq<seq<Row>>)
    requires |ls| == |rs|
    ensures |out| == |rs| && forall i :: 0 <= i < |rs| ==> out[i] == Merge(j, ls[i], rs[i])
  {
    seq(|rs|, i requires 0 <= i < |rs| => Merge(j, ls[i], rs[i]))
  }

  function PairUp(m: (Row, Row) -> seq<Row>, ls: seq<seq<Row>>, rs: seq<seq<Row>>): (out: seq<seq<Row>>)
    requires |ls| == |rs|
    ensures |out| == |rs| && forall i :: 0 <= i < |rs| ==> out[i] == Pair(m, ls[i], rs[i])
  {
    seq(|rs|, i requires 0 <= i < |rs| => Pair(m, ls[i], rs[i]))
  }

  /** With a row overtaken in some partition, the merged parts are too few. */
  lemma {:induction false} MergedTooFew(j: Merger, ls: seq<seq<Row>>, rs: seq<seq<Row>>, k: nat)
    requires |ls| == |rs| && k < |ls| && j.Coherent() && SortedBy(j.rightKey, rs[k]) && Overtaken(j, ls[k], rs[k])
    ensures |Flatten(MergeEach(j, ls, rs))| < |Flatten(PairUp(j.emit, ls, rs))|
  {
    var (s, t) := (MergeEach(j, ls, rs), PairUp(j.emit, ls, rs));
    forall i | 0 <= i < |s| ensures |s[i]| <= |t[i]| {
      MergeWithin(j, ls[i], rs[i]);
    }
    MergeLoses(j, ls[k], rs[k]);
    SmallerParts(s, t, k);
  }

  /** Some run of the sides has a left row overtaken. */
  lemma {:induction false} UnluckySides(env: Env, j: Merger, l: Plan, r: Plan) returns (ls: seq<seq<Row>>,
                                        rs: seq<seq<Row>>, k: nat)
    requires Loose(l) && MayOvertake(env, j, l, r)
    ensures Runs(env, l, ls) && Runs(env, r, rs) && |ls| == |rs| && k < |ls| && Overtaken(j, ls[k], rs[k])
  {
    var ls';
    ls', rs :| Runs(env, l, ls') && Runs(env, r, rs) && PartsOvertake(j, ls', rs);
    ls, k := UnluckyOrder(j, ls', rs);
    LooseShuffles(env, l, ls', ls);
  }

  lemma {:induction false} UnluckyOrder(j: Merger, ls: seq<seq<Row>>, rs: seq<seq<Row>>) returns (ls': seq<seq<Row>>,
                                        k: nat)
    requires PartsOvertake(j, ls, rs)
    ensures Reordered(ls, ls') && k < |ls'| && Overtaken(j, ls'[k], rs[k])
  {
    k :| 0 <= k < |ls| && CanOvertake(j, ls[k], rs[k]);
    var xs := OvertakingOrder(j, ls[k], rs[k]);
    ls' := ls[k := xs];
  }

  lemma {:induction false} LossyMerge(env: Env, p: Plan, ls: seq<seq<Row>>, rs: seq<seq<Row>>, k: nat)
    requires Exposed(p) && Runs(env, p.left, ls) && Runs(env, p.right, rs) && |ls| == |rs| && k < |ls|
    requires Overtaken(MergerOf(p.cond), ls[k], rs[k])
    ensures |Flatten(MergeEach(MergerOf(p.cond), ls, rs))| < |Denote(env, p)|
  {
    var j := MergerOf(p.cond);
    RightSorted(env, p, rs);
    MergerCoherent(p.cond);
    MergedTooFew(j, ls, rs, k);
    AllPairs(env, p, ls, rs);
  }

  lemma {:induction false} AllPairs(env: Env, p: Plan, ls: seq<seq<Row>>, rs: seq<seq<Row>>)
    requires Exposed(p) && Runs(env, p.left, ls) && Runs(env, p.right, rs) && |ls| == |rs|
    ensures |Flatten(PairUp(JoinFn(p.cond, None), ls, rs))| == |Denote(env, p)|
  {
    var all := PairUp(JoinFn(p.cond, None), ls, rs);
    PairedDelivers(env, p, ls, rs, all);
    assert |multiset(Flatten(all))| == |multiset(Denote(env, p))|;
  }

  lemma {:induction false} LossyRun(env: Env, p: Plan) returns (out: seq<seq<Row>>)
    requires Exposed(p) && MayOvertake(env, MergerOf(p.cond), p.left, p.right)
    ensures Runs(env, p, out) && |Flatten(out)| < |Denote(env, p)|
  {
    var ls, rs, k := UnluckySides(env, MergerOf(p.cond), p.left, p.right);
    LossyMerge(env, p, ls, rs, k);
    out := MergeEach(MergerOf(p.cond), ls, rs);
    assert SidesRun(p, ls, rs, out);
  }

  /**
   A merge join over unordered left rows delivers the join in every run if and
   only if, in no run of its sides, a left row that has a match shares its
   partition with a left row of a greater key.
   */
  lemma {:induction false} ExposedIff(env: Env, p: Plan)
    requires Exposed(p)
    ensures AlwaysDelivers(env, p) <==> !MayOvertake(env, MergerOf(p.cond), p.left, p.right)
  {
    if MayOvertake(env, MergerOf(p.cond), p.left, p.right) {
      var out := LossyRun(env, p);
      assert |multiset(Flatten(out))| != |multiset(Denote(env, p))|;
    } else {
      forall out | Runs(env, p, out) ensures Perm(Flatten(out), Denote(env, p)) {
        SafeRun(env, p, out);
      }
    }
  }

  // ------------------------------------------------ said before placement

  lemma {:induction false} OvertakingBags(j: Merger, s: seq<Row>, t: seq<Row>, ys: seq<Row>, zs: seq<Row>)
    requires Perm(s, t) && Perm(ys, zs) && CanOvertake(j, s, ys)
    ensures CanOvertake(j, t, zs)
  {
    var a, b :| a in s && b in s && Passes(j, b, a, ys);
    var y :| y in ys && j.emit(a, y) != [];
    PermMember(s, t, a);
    PermMember(s, t, b);
    PermMember(ys, zs, y);
    assert Passes(j, b, a, zs);
  }

  /** A plan whose every run is one partition with the plan's rows. */
  ghost predicate Single(env: Env, p: Plan) {
    forall out :: Runs(env, p, out) ==> |out| == 1 && Perm(out[0], Denote(env, p))
  }

  lemma {:induction false} OnePart(env: Env, p: Plan)
    requires WellFormed(p) && !HoldsStates(p) && Contract(p) && Orderly(p) && PartCount(p) == 1
    ensures Single(env, p)
  {
    forall out | Runs(env, p, out) ensures |out| == 1 && Perm(out[0], Denote(env, p)) {
      RunCount(env, p, out);
      RunDelivers(env, p, out);
      assert out == [out[0]];
      FlattenOne(out[0]);
    }
  }

  lemma {:induction false} OvertakingIff(j: Merger, s: seq<Row>, t: seq<Row>, ys: seq<Row>, zs: seq<Row>)
    requires Perm(s, t) && Perm(ys, zs)
    ensures CanOvertake(j, s, ys) <==> CanOvertake(j, t, zs)
  {
    if CanOvertake(j, s, ys) {
      OvertakingBags(j, s, t, ys, zs);
    }
    if CanOvertake(j, t, zs) {
      OvertakingBags(j, t, s, zs, ys);
    }
  }

  lemma {:induction false} RunBags(env: Env, j: Merger, l: Plan, r: Plan, ls: seq<seq<Row>>, rs: seq<seq<Row>>)
    requires Single(env, l) && Single(env, r) && Runs(env, l, ls) && Runs(env, r, rs)
    ensures PartsOvertake(j, ls, rs) <==> CanOvertake(j, Denote(env, l), Denote(env, r))
  {
    OnePartOvertakes(j, ls, rs, Denote(env, l), Denote(env, r));
  }

  lemma {:induction false} OnePartOvertakes(j: Merger, ls: seq<seq<Row>>, rs: seq<seq<Row>>, xs: seq<Row>, ys: seq<Row>)
    requires |ls| == |rs| == 1 && Perm(ls[0], xs) && Perm(rs[0], ys)
    ensures PartsOvertake(j, ls, rs) <==> CanOvertake(j, xs, ys)
  {
    OvertakingIff(j, ls[0], xs, rs[0], ys);
  }

  /** In one partition, which rows can overtake is a matter of the two bags. */
  lemma {:induction false} OneBag(env: Env, j: Merger, l: Plan, r: Plan)
    requires Single(env, l) && Single(env, r) && HasRun(env, l) && HasRun(env, r)
    ensures MayOvertake(env, j, l, r) <==> CanOvertake(j, Denote(env, l), Denote(env, r))
  {
    if MayOvertake(env, j, l, r) {
      var ls, rs :| Runs(env, l, ls) && Runs(env, r, rs) && PartsOvertake(j, ls, rs);
      RunBags(env, j, l, r, ls, rs);
    } else {
      var ls :| Runs(env, l, ls);
      var rs :| Runs(env, r, rs);
      RunBags(env, j, l, r, ls, rs);
    }
  }

  /** A merge join that stays on the CPU over a join that does not. */
  ghost predicate Stacked(target: BackendKind, p: Plan) {
    && p.SortMergeJoin? && !Lowers(target, p)
    && (p.left.HashJoin? || p.left.SortMergeJoin?) && Lowers(target, p.left)
    && Kept(target, p.left) && Kept(target, p.right)
    && OnColumns(p.cond.on) && StaysOrdered(target, p.right, RightCols(p.cond.on))
  }

  lemma {:induction false} LoweredJoin(env: Env, target: BackendKind, p: Plan)
    requires (p.HashJoin? || p.SortMergeJoin?) && WellFormed(p) && Distributed(p) && TransformUp(target, p).Ok?
      && Lowers(target, p)
    ensures TransformUp(target, p).value.GpuHashJoin?
  {
    var mid := SidesTransform(env, target, p);
    if p.HashJoin? {
      JoinLowersIff(target, mid);
    } else {
      MergeLowersIff(target, mid);
    }
  }

  lemma {:induction false} StackedExposed(env: Env, target: BackendKind, p: Plan) returns (q: Plan)
    requires WellFormed(p) && Distributed(p) && TransformUp(target, p).Ok? && Stacked(target, p)
    ensures TransformUp(target, p) == Ok(q) && Exposed(q) && q.cond == p.cond
    ensures TransformUp(target, p.left) == Ok(q.left) && TransformUp(target, p.right) == Ok(q.right)
  {
    q := SidesTransform(env, target, p);
    SidesDistributed(p);
    LoweredJoin(env, target, p.left);
    KeptForetold(env, target, p.left);
    KeptForetold(env, target, p.right);
    OrderForetold(env, target, p.right, RightCols(p.cond.on));
    TransformRefines(env, target, p);
  }

  lemma {:induction false} ExposedSides(env: Env, p: Plan)
    requires Exposed(p) && PartCount(p.left) == PartCount(p.right) == 1
    ensures Single(env, p.left) && Single(env, p.right)
  {
    OnePart(env, p.left);
    OnePart(env, p.right);
  }

  /** Placing a plan of one partition leaves it one. */
  lemma {:induction false} StackedSides(env: Env, target: BackendKind, p: Plan)
    requires TwoSided(p) && WellFormed(p) && Distributed(p)
    requires TransformUp(target, p.left).Ok? && TransformUp(target, p.right).Ok?
    requires PartCount(p.left) == PartCount(p.right) == 1
    ensures var (l, r) := (TransformUp(target, p.left).value, TransformUp(target, p.right).value);
            && PartCount(l) == PartCount(r) == 1
            && Perm(Denote(env, l), Denote(env, p.left)) && Perm(Denote(env, r), Denote(env, p.right))
  {
    SidesDistributed(p);
    TransformRefines(env, target, p.left);
    TransformRefines(env, target, p.right);
  }

  /**
   Exactly when a stack of joins survives placement, for one partition a side: a
   merge join left on the CPU over a lowered join delivers its rows in every run
   if and only if no left row with a match has a smaller key than another left row.
   */
  lemma {:induction false} StackedIff(env: Env, target: BackendKind, p: Plan)
    requires WellFormed(p) && Distributed(p) && TransformUp(target, p).Ok? && Stacked(target, p)
    requires PartCount(p.left) == PartCount(p.right) == 1 && HasRun(env, TransformUp(target, p).value)
    ensures AlwaysDelivers(env, TransformUp(target, p).value)
       <==> !CanOvertake(MergerOf(p.cond), Denote(env, p.left), Denote(env, p.right))
  {
    var j := MergerOf(p.cond);
    var q := StackedExposed(env, target, p);
    StackedSides(env, target, p);
    SidesHaveRun(env, q);
    ExposedIff(env, q);
    ExposedSides(env, q);
    OneBag(env, j, q.left, q.right);
    if CanOvertake(j, Denote(env, q.left), Denote(env, q.right)) {
      OvertakingBags(j, Denote(env, q.left), Denote(env, p.left), Denote(env, q.right), Denote(env, p.right));
    }
    if CanOvertake(j, Denote(env, p.left), Denote(env, p.right)) {
      OvertakingBags(j, Denote(env, p.left), Denote(env, q.left), Denote(env, p.right), Denote(env, q.right));
    }
  }

  // ------------------------------------------------------------------ example

  const NUMBERS: seq<Row> := [[I64(1)], [I64(2)]]

  const NUMBER_SCAN: Plan := Scan([KEY], [NUMBERS])

  const SORTED: Plan := Sort([0], None, NUMBER_SCAN)

  /** A merge join on the one key, which the rule lowers. */
  const INNER: Plan := SortMergeJoin(OnKeys(0, 0), SORTED, SORTED)

  /** A merge join with a residual filter over it, which stays on the CPU. */
  const OUTER: Plan := SortMergeJoin(RESIDUAL, INNER, SORTED)

  lemma {:induction false} SortedValid()
    ensures WellFormed(SORTED) && Distributed(SORTED) && Constructed(SORTED) && !Refused(SORTED) && !HoldsStates(SORTED)
    ensures SchemaOf(SORTED) == [KEY] && PartCount(SORTED) == 1 && OrderOn(SORTED, [0]) && Kept(Cuda, SORTED)
    ensures StaysOrdered(Cuda, SORTED, [0])
  {
    assert WellFormed(NUMBER_SCAN) && Distributed(NUMBER_SCAN) && Constructed(NUMBER_SCAN) && !Refused(NUMBER_SCAN);
    assert SchemaOf(NUMBER_SCAN) == [KEY] && PartCount(NUMBER_SCAN) == 1 && Kept(Cuda, NUMBER_SCAN);
  }

  lemma {:induction false} InnerValid()
    ensures WellFormed(INNER) && Distributed(INNER) && Constructed(INNER) && !Refused(INNER) && !HoldsStates(INNER)
    ensures SchemaOf(INNER) == [KEY, KEY] && PartCount(INNER) == 1 && OrderOn(INNER, [0]) && Kept(Cuda, INNER)
      && Lowers(Cuda, INNER)
  {
    SortedValid();
    var on := OnKeys(0, 0).on;
    assert LeftCols(on) == [0] && RightCols(on) == [0];
    assert ToLeft(on, 1, [0]) == [0];
    assert SchemaOf(INNER) == [KEY] + [KEY];
    MergeLowersIff(Cuda, INNER);
  }

  lemma {:induction false} OuterValid()
    ensures WellFormed(OUTER) && Distributed(OUTER) && Constructed(OUTER) && !Refused(OUTER) && !HoldsStates(OUTER)
    ensures Stacked(Cuda, OUTER) && !Kept(Cuda, OUTER)
  {
    SortedValid();
    InnerValid();
    var on := RESIDUAL.on;
    assert LeftCols(on) == [0] && RightCols(on) == [0];
    MergeLowersIff(Cuda, OUTER);
    assert !StaysOrdered(Cuda, INNER, [0]);
  }

  lemma {:induction false} SortedRows(env: Env)
    ensures Denote(env, SORTED) == NUMBERS
  {
    FlattenOne(NUMBERS);
    assert Denote(env, NUMBER_SCAN) == NUMBERS;
  }

  lemma {:induction false} InnerRows(env: Env)
    ensures [I64(1), I64(1)] in Denote(env, INNER) && [I64(2), I64(2)] in Denote(env, INNER)
  {
    SortedRows(env);
    var m := JoinFn(OnKeys(0, 0), None);
    assert Denote(env, INNER) == Pair(m, NUMBERS, NUMBERS);
    JoinFnPair(1);
    JoinFnPair(2);
    PairHolds(m, NUMBERS, NUMBERS, 0, 0, [I64(1), I64(1)]);
    PairHolds(m, NUMBERS, NUMBERS, 1, 1, [I64(2), I64(2)]);
  }

  lemma {:induction false} JoinFnPair(x: i64)
    ensures JoinFn(OnKeys(0, 0), None)([I64(x)], [I64(x)]) == [[I64(x), I64(x)]]
  {
    assert [I64(x)] + [I64(x)] == [I64(x), I64(x)];
    assert Matches(OnKeys(0, 0), [I64(x)], [I64(x)]);
  }

  lemma {:induction false} PairHolds(m: (Row, Row) -> seq<Row>, xs: seq<Row>, ys: seq<Row>, i: nat, k: nat, r: Row)
    requires i < |xs| && k < |ys| && r in m(xs[i], ys[k])
    ensures r in Pair(m, xs, ys)
  {
    if i == 0 {
      PairRowHolds(m, xs[0], ys, k, r);
    } else {
      PairHolds(m, xs[1..], ys, i - 1, k, r);
    }
  }

  lemma {:induction false} PairRowHolds(m: (Row, Row) -> seq<Row>, x: Row, ys: seq<Row>, k: nat, r: Row)
    requires k < |ys| && r in m(x, ys[k])
    ensures r in PairRow(m, x, ys)
  {
    if k > 0 {
      PairRowHolds(m, x, ys[1..], k - 1, r);
    }
  }

  lemma {:induction false} OneBeforeTwo()
    ensures Leq([I64(1)], [I64(2)]) && [I64(1)] != [I64(2)]
  {
    assert Code(I64(1)) == [2, 1] && Code(I64(2)) == [2, 2];
    assert [2, 1][1..] == [1] && [2, 2][1..] == [2];
    assert Lex(IntLe, [1], [2]);
    assert Before(I64(1), I64(2));
  }

  lemma {:induction false} ResidualMerger(x: i64)
    ensures MergerOf(RESIDUAL).leftKey([I64(x), I64(x)]) == [I64(x)]
    ensures MergerOf(RESIDUAL).emit([I64(x), I64(x)], [I64(x)]) != []
  {
    assert Matches(RESIDUAL, [I64(x), I64(x)], [I64(x)]);
  }

  /** Row `2` can come before row `1`, which has a match. */
  lemma {:induction false} OuterOvertakes(env: Env)
    ensures CanOvertake(MergerOf(RESIDUAL), Denote(env, INNER), Denote(env, SORTED))
  {
    InnerRows(env);
    SortedRows(env);
    NumbersPass();
  }

  lemma {:induction false} NumbersPass()
    ensures Passes(MergerOf(RESIDUAL), [I64(2), I64(2)], [I64(1), I64(1)], NUMBERS)
  {
    OneBeforeTwo();
    ResidualMerger(1);
    ResidualMerger(2);
    assert NUMBERS[0] in NUMBERS;
  }

  /**
   A query whose rows placement loses: the lowered inner join may emit its rows in
   any order, and the outer merge join, left on the CPU, then passes a match by.
   */
  lemma {:induction false} StackedMergesLoseRows(env: Env) returns (out: seq<seq<Row>>, out': seq<seq<Row>>)
    ensures WellFormed(OUTER) && !HoldsStates(OUTER) && Distributed(OUTER) && Optimize(Cuda, OUTER).Ok?
    ensures Runs(env, OUTER, out) && Runs(env, Optimize(Cuda, OUTER).value, out')
    ensures !Perm(Flatten(out'), Flatten(out))
  {
    OuterValid();
    PlacementFails(env, Cuda, OUTER);
    out := OuterRun(env);
    out' := OuterLoses(env);
  }

  lemma {:induction false} OuterRun(env: Env) returns (out: seq<seq<Row>>)
    ensures Runs(env, OUTER, out) && Perm(Flatten(out), Denote(env, OUTER))
  {
    OuterValid();
    DistributedContract(OUTER);
    DistributedOrderly(OUTER);
    assert Runnable(env, NUMBER_SCAN) && Runnable(env, SORTED) && Runnable(env, INNER);
    RunnableIffHasRun(env, OUTER);
    out :| Runs(env, OUTER, out);
    RunDelivers(env, OUTER, out);
  }

  lemma {:induction false} PlacedOuterRuns(env: Env)
    requires TransformUp(Cuda, OUTER).Ok?
    ensures HasRun(env, TransformUp(Cuda, OUTER).value)
  {
    OuterValid();
    InnerValid();
    SortedValid();
    var q := StackedExposed(env, Cuda, OUTER);
    TransformForetold(env, Cuda, INNER);
    TransformForetold(env, Cuda, SORTED);
    assert Ready(env, Cuda, NUMBER_SCAN) && Ready(env, Cuda, SORTED) && Ready(env, Cuda, INNER);
    assert NewCount(Cuda, NUMBER_SCAN) == 1 && NewCount(Cuda, SORTED) == 1 && NewCount(Cuda, INNER) == 1;
    ExposedRuns(env, q);
  }

  lemma {:induction false} ExposedRuns(env: Env, p: Plan)
    requires Exposed(p) && Runnable(env, p.left) && Runnable(env, p.right) && PartCount(p.left) == PartCount(p.right)
    ensures HasRun(env, p)
  {
    RunnableIffHasRun(env, p.left);
    RunnableIffHasRun(env, p.right);
    SidesHaveRun(env, p);
  }

  lemma {:induction false} OuterLoses(env: Env) returns (out: seq<seq<Row>>)
    requires TransformUp(Cuda, OUTER).Ok?
    ensures Runs(env, TransformUp(Cuda, OUTER).value, out) && !Perm(Flatten(out), Denote(env, OUTER))
  {
    var q := TransformUp(Cuda, OUTER).value;
    OuterValid();
    InnerValid();
    SortedValid();
    PlacedOuterRuns(env);
    OuterOvertakes(env);
    StackedIff(env, Cuda, OUTER);
    out :| Runs(env, q, out) && !Perm(Flatten(out), Denote(env, q));
    TransformRefines(env, Cuda, OUTER);
  }

  lemma {:induction false} OvertakenUnsorted(on: seq<(Expr, Expr)>, j: Merger, xs: seq<Row>, ys: seq<Row>)
    requires OnColumns(on) && j.leftKey == LeftKey(on) && Overtaken(j, xs, ys)
    ensures !SortedBy(ColumnsOf(LeftCols(on)), xs)
  {
    KeysAreColumns(on, xs);
    var i, k :| 0 <= i < k < |xs| && Passes(j, xs[i], xs[k], ys);
    if Leq(j.leftKey(xs[i]), j.leftKey(xs[k])) {
      LeqAntisymmetric(j.leftKey(xs[i]), j.leftKey(xs[k]));
      assert false;
    }
  }

  /** An order that a query had from a merge join, with no sort above it, is gone after placement. */
  lemma {:induction false} OrderIsLost(env: Env) returns (out: seq<seq<Row>>)
    ensures WellFormed(INNER) && Distributed(INNER) && OrderOn(INNER, [0]) && Optimize(Cuda, INNER).Ok?
    ensures Runs(env, Optimize(Cuda, INNER).value, out) && !Ascending([0], out)
  {
    InnerValid();
    OuterValid();
    PlacementFails(env, Cuda, OUTER);
    var q := StackedExposed(env, Cuda, OUTER);
    var rs, k;
    out, rs, k := UnluckyInner(env, q);
    assert LeftCols(RESIDUAL.on) == [0];
    OvertakenUnsorted(RESIDUAL.on, MergerOf(RESIDUAL), out[k], rs[k]);
  }

  lemma {:induction false} UnluckyInner(env: Env, q: Plan) returns (ls: seq<seq<Row>>, rs: seq<seq<Row>>, k: nat)
    requires TransformUp(Cuda, OUTER) == Ok(q) && Exposed(q) && q.cond == RESIDUAL
    requires TransformUp(Cuda, INNER) == Ok(q.left)
    ensures Runs(env, q.left, ls) && |ls| == |rs| && k < |ls| && Overtaken(MergerOf(RESIDUAL), ls[k], rs[k])
  {
    OuterValid();
    InnerValid();
    SortedValid();
    PlacedOuterRuns(env);
    OuterOvertakes(env);
    StackedIff(env, Cuda, OUTER);
    ExposedIff(env, q);
    ls, rs, k := UnluckySides(env, MergerOf(RESIDUAL), q.left, q.right);
  }
}
