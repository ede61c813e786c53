/**
 Grouped aggregation over rows. An aggregate is a commutative monoid of states,
 so one pass over all rows, and a merge of states computed part by part, are the
 same fold in a different order.
 */
module Groups {
  import opened Core
  import opened Bags

  // ------------------------------------------------------- aggregate states

  /** The state of a group with no input. */
  function Unit(f: AggFn): Value {
    if f.Count? then I64(0) else Null
  }

  /** The state of a group with the single input `v`; `NULL` inputs are skipped. */
  function Lift(f: AggFn, v: Value): Value {
    if f.Count? then I64(if v.Null? then 0 else 1)
    else if v.I64? then v
    else Null
  }

  predicate IsState(f: AggFn, v: Value) {
    v.I64? || (!f.Count? && v.Null?)
  }

  function AsState(f: AggFn, v: Value): Value {
    if IsState(f, v) then v else Unit(f)
  }

  /** Merges two states. `SUM` and `COUNT` wrap around in 64 bits. */
  function Combine(f: AggFn, a: Value, b: Value): Value {
    if !a.I64? then b
    else if !b.I64? then a
    else match f
      case Sum => I64(AddWrap(a.i, b.i))
      case Count => I64(AddWrap(a.i, b.i))
      case Min => if a.i <= b.i then a else b
      case Max => if a.i >= b.i then a else b
  }

  lemma {:induction false} WrapAssociates(x: i64, y: i64, z: i64)
    ensures AddWrap(x, AddWrap(y, z)) == AddWrap(AddWrap(x, y), z)
  {
  }

  lemma {:induction false} CombineAssociates(f: AggFn, a: Value, b: Value, c: Value)
    requires IsState(f, a) && IsState(f, b) && IsState(f, c)
    ensures Combine(f, a, Combine(f, b, c)) == Combine(f, Combine(f, a, b), c)
  {
    if a.I64? && b.I64? && c.I64? {
      match f {
        case Sum => WrapAssociates(a.i, b.i, c.i);
        case Count => WrapAssociates(a.i, b.i, c.i);
        case Min =>
        case Max =>
      }
    }
  }

  /** States form a commutative monoid. */
  lemma {:induction false} CombineLaws(f: AggFn, a: Value, b: Value, c: Value)
    requires IsState(f, a) && IsState(f, b) && IsState(f, c)
    ensures IsState(f, Combine(f, a, b))
    ensures Combine(f, a, b) == Combine(f, b, a)
    ensures Combine(f, a, Combine(f, b, c)) == Combine(f, Combine(f, a, b), c)
    ensures Combine(f, Unit(f), a) == a == Combine(f, a, Unit(f))
  {
    CombineAssociates(f, a, b, c);
  }

  lemma {:induction false} CombineSwap(f: AggFn, a: Value, b: Value, c: Value)
    requires IsState(f, a) && IsState(f, b) && IsState(f, c)
    ensures Combine(f, a, Combine(f, b, c)) == Combine(f, b, Combine(f, a, c))
  {
    CombineLaws(f, a, b, c);
    CombineLaws(f, b, a, c);
  }

  // ----------------------------------------------------------------- groups

  /**
   One aggregate column. `merging` reads states produced by an earlier phase
   instead of raw inputs. A row that a `FILTER` clause rejects has input `NULL`.
   */
  datatype Agg = Agg(func: AggFn, merging: bool, input: Row -> Value) {
    function Start(r: Row): (v: Value)
      ensures IsState(func, v)
    {
      if merging then AsState(func, input(r)) else Lift(func, input(r))
    }
  }

  datatype Grouping = Grouping(key: Row -> Row, aggs: seq<Agg>)

  /** Folds one row into the state `v` of group `k`. */
  function Step(key: Row -> Row, a: Agg, k: Row, r: Row, v: Value): Value {
    if key(r) == k then Combine(a.func, a.Start(r), v) else v
  }

  /** The state of aggregate `a` for group `k`. */
  function Fold(key: Row -> Row, a: Agg, k: Row, rows: seq<Row>): Value {
    if rows == [] then Unit(a.func) else Step(key, a, k, rows[0], Fold(key, a, k, rows[1..]))
  }

  /** The distinct keys present. */
  function Keys(key: Row -> Row, rows: seq<Row>): (ks: seq<Row>)
    ensures forall i, j :: 0 <= i < j < |ks| ==> ks[i] != ks[j]
    ensures forall k :: k in ks <==> exists r :: r in rows && key(r) == k
  {
    if rows == [] then []
    else
      var ks := Keys(key, rows[1..]);
      assert forall r :: r in rows <==> r == rows[0] || r in rows[1..];
      if key(rows[0]) in ks then ks else [key(rows[0])] + ks
  }

  function GroupRow(g: Grouping, rows: seq<Row>, k: Row): (r: Row)
    ensures |r| == |k| + |g.aggs|
  {
    k + seq(|g.aggs|, j requires 0 <= j < |g.aggs| => Fold(g.key, g.aggs[j], k, rows))
  }

  function RowOf(g: Grouping, rows: seq<Row>): Row -> seq<Row> {
    k => [GroupRow(g, rows, k)]
  }

  /** One output row per distinct key: the key, then the aggregate states. */
  function Group(g: Grouping, rows: seq<Row>): seq<Row> {
    FlatMap(RowOf(g, rows), Keys(g.key, rows))
  }

  /** Every part aggregated on its own. */
  function GroupEach(g: Grouping, parts: seq<seq<Row>>): (r: seq<seq<Row>>)
    ensures |r| == |parts|
    ensures forall i :: 0 <= i < |parts| ==> r[i] == Group(g, parts[i])
  {
    seq(|parts|, i requires 0 <= i < |parts| => Group(g, parts[i]))
  }

  // ------------------------------------------------------------------- Fold

  lemma {:induction false} FoldState(key: Row -> Row, a: Agg, k: Row, rows: seq<Row>)
    ensures IsState(a.func, Fold(key, a, k, rows))
  {
    if rows != [] {
      FoldState(key, a, k, rows[1..]);
      var v := a.Start(rows[0]);
      CombineLaws(a.func, v, Fold(key, a, k, rows[1..]), v);
    }
  }

  lemma {:induction false} FoldAppend(key: Row -> Row, a: Agg, k: Row, s: seq<Row>, t: seq<Row>)
    ensures Fold(key, a, k, s + t) == Combine(a.func, Fold(key, a, k, s), Fold(key, a, k, t))
  {
    FoldState(key, a, k, t);
    if s == [] {
      assert s + t == t;
      CombineLaws(a.func, Fold(key, a, k, t), Unit(a.func), Unit(a.func));
    } else {
      FoldAppend(key, a, k, s[1..], t);
      FoldState(key, a, k, s[1..]);
      assert (s + t)[1..] == s[1..] + t;
      CombineLaws(a.func, a.Start(s[0]), Fold(key, a, k, s[1..]), Fold(key, a, k, t));
    }
  }

  lemma {:induction false} FoldCons(key: Row -> Row, a: Agg, k: Row, x: Row, rows: seq<Row>)
    ensures Fold(key, a, k, [x] + rows) == Step(key, a, k, x, Fold(key, a, k, rows))
  {
    assert ([x] + rows)[1..] == rows;
  }

  lemma {:induction false} FoldMove(key: Row -> Row, a: Agg, k: Row, x: Row, front: seq<Row>, back: seq<Row>)
    ensures Fold(key, a, k, front + ([x] + back)) == Fold(key, a, k, [x] + (front + back))
  {
    FoldAppend(key, a, k, front, [x] + back);
    FoldAppend(key, a, k, [x], back);
    FoldAppend(key, a, k, [x], front + back);
    FoldAppend(key, a, k, front, back);
    FoldState(key, a, k, front);
    FoldState(key, a, k, back);
    FoldState(key, a, k, [x]);
    CombineSwap(a.func, Fold(key, a, k, front), Fold(key, a, k, [x]), Fold(key, a, k, back));
  }

  /** A state does not depend on the order of the rows. */
  lemma {:induction false} FoldPerm(key: Row -> Row, a: Agg, k: Row, s: seq<Row>, t: seq<Row>)
    requires Perm(s, t)
    ensures Fold(key, a, k, s) == Fold(key, a, k, t)
  {
    if s == [] {
      PermEmpty(t);
    } else {
      var front, back := PermSplit(s, t);
      FoldPerm(key, a, k, s[1..], front + back);
      FoldMove(key, a, k, s[0], front, back);
      FoldCons(key, a, k, s[0], front + back);
    }
  }

  lemma {:induction false} FoldAbsent(key: Row -> Row, a: Agg, k: Row, rows: seq<Row>)
    requires forall r :: r in rows ==> key(r) != k
    ensures Fold(key, a, k, rows) == Unit(a.func)
  {
    if rows != [] {
      FoldAbsent(key, a, k, rows[1..]);
    }
  }

  lemma {:induction false} FoldExt(key: Row -> Row, key': Row -> Row, a: Agg, a': Agg, k: Row, rows: seq<Row>)
    requires a.func == a'.func && a.merging == a'.merging
    requires forall r :: r in rows ==> key(r) == key'(r) && a.input(r) == a'.input(r)
    ensures Fold(key, a, k, rows) == Fold(key', a', k, rows)
  {
    if rows != [] {
      FoldExt(key, key', a, a', k, rows[1..]);
    }
  }

  // ------------------------------------------------------------------ Group

  /** Two duplicate-free sequences with the same elements are the same bag. */
  lemma {:induction false} DistinctPerm(ks: seq<Row>, ls: seq<Row>)
    requires forall i, j :: 0 <= i < j < |ks| ==> ks[i] != ks[j]
    requires forall i, j :: 0 <= i < j < |ls| ==> ls[i] != ls[j]
    requires forall k :: k in ks <==> k in ls
    ensures Perm(ks, ls)
  {
    DistinctCount(ks);
    DistinctCount(ls);
    forall k ensures multiset(ks)[k] == multiset(ls)[k] {
      assert k in ks <==> k in ls;
    }
  }

  lemma {:induction false} DistinctCount(ks: seq<Row>)
    requires forall i, j :: 0 <= i < j < |ks| ==> ks[i] != ks[j]
    ensures forall k :: multiset(ks)[k] == if k in ks then 1 else 0
  {
    if ks != [] {
      DistinctCount(ks[1..]);
      assert ks == [ks[0]] + ks[1..];
    }
  }

  /** Groups agree as bags when they agree on the keys and on every group's row. */
  lemma {:induction false} GroupAgrees(g: Grouping, rows: seq<Row>, g': Grouping, rows': seq<Row>)
    requires forall k :: k in Keys(g.key, rows) <==> k in Keys(g'.key, rows')
    requires forall k :: k in Keys(g.key, rows) ==> GroupRow(g, rows, k) == GroupRow(g', rows', k)
    ensures Perm(Group(g, rows), Group(g', rows'))
  {
    var (ks, ks') := (Keys(g.key, rows), Keys(g'.key, rows'));
    DistinctPerm(ks, ks');
    FlatMapPerm(RowOf(g, rows), ks, ks');
    FlatMapExt(RowOf(g, rows), RowOf(g', rows'), ks');
  }

  /** Aggregation depends only on the bag of input rows. */
  lemma {:induction false} GroupPerm(g: Grouping, s: seq<Row>, t: seq<Row>)
    requires Perm(s, t)
    ensures Perm(Group(g, s), Group(g, t))
  {
    forall r ensures r in s <==> r in t {
      assert r in s <==> r in multiset(s);
      assert r in t <==> r in multiset(t);
    }
    forall k | k in Keys(g.key, s) ensures GroupRow(g, s, k) == GroupRow(g, t, k) {
      forall j | 0 <= j < |g.aggs| ensures Fold(g.key, g.aggs[j], k, s) == Fold(g.key, g.aggs[j], k, t) {
        FoldPerm(g.key, g.aggs[j], k, s, t);
      }
    }
    GroupAgrees(g, s, g, t);
  }

  ghost predicate SameGrouping(g: Grouping, g': Grouping, rows: seq<Row>) {
    && |g.aggs| == |g'.aggs|
    && (forall j :: 0 <= j < |g.aggs| ==> g.aggs[j].func == g'.aggs[j].func && g.aggs[j].merging == g'.aggs[j].merging)
    && (forall r :: r in rows ==> g.key(r) == g'.key(r))
    && (forall j, r :: 0 <= j < |g.aggs| && r in rows ==> g.aggs[j].input(r) == g'.aggs[j].input(r))
  }

  lemma {:induction false} GroupExt(g: Grouping, g': Grouping, rows: seq<Row>)
    requires SameGrouping(g, g', rows)
    ensures Perm(Group(g, rows), Group(g', rows))
  {
    forall k | k in Keys(g.key, rows) ensures GroupRow(g, rows, k) == GroupRow(g', rows, k) {
      forall j | 0 <= j < |g.aggs|
        ensures Fold(g.key, g.aggs[j], k, rows) == Fold(g'.key, g'.aggs[j], k, rows)
      {
        FoldExt(g.key, g'.key, g.aggs[j], g'.aggs[j], k, rows);
      }
    }
    GroupAgrees(g, rows, g', rows);
  }

  // ------------------------------------------------ key-disjoint partitions

  ghost predicate KeyDisjoint(key: Row -> Row, parts: seq<seq<Row>>) {
    forall i, j, r, s :: 0 <= i < |parts| && 0 <= j < |parts| && i != j && r in parts[i] && s in parts[j]
                         ==> key(r) != key(s)
  }

  lemma {:induction false} GroupDisjointAppend(g: Grouping, s: seq<Row>, t: seq<Row>)
    requires forall r, q :: r in s && q in t ==> g.key(r) != g.key(q)
    ensures Perm(Group(g, s + t), Group(g, s) + Group(g, t))
  {
    var (ks, kt, ka) := (Keys(g.key, s), Keys(g.key, t), Keys(g.key, s + t));
    forall i, j | 0 <= i < j < |ks + kt| ensures (ks + kt)[i] != (ks + kt)[j] {
      if i < |ks| <= j {
        assert (ks + kt)[i] in ks && (ks + kt)[j] in kt;
      }
    }
    forall k ensures k in ka <==> k in ks + kt {
      assert k in ks + kt <==> k in ks || k in kt;
    }
    DistinctPerm(ka, ks + kt);
    FlatMapPerm(RowOf(g, s + t), ka, ks + kt);
    FlatMapAppend(RowOf(g, s + t), ks, kt);
    forall k | k in ks ensures GroupRow(g, s + t, k) == GroupRow(g, s, k) {
      GroupRowDisjoint(g, s, t, k);
    }
    forall k | k in kt ensures GroupRow(g, s + t, k) == GroupRow(g, t, k) {
      GroupRowDisjoint(g, s, t, k);
    }
    FlatMapExt(RowOf(g, s + t), RowOf(g, s), ks);
    FlatMapExt(RowOf(g, s + t), RowOf(g, t), kt);
  }

  lemma {:induction false} GroupRowDisjoint(g: Grouping, s: seq<Row>, t: seq<Row>, k: Row)
    ensures (forall r :: r in t ==> g.key(r) != k) ==> GroupRow(g, s + t, k) == GroupRow(g, s, k)
    ensures (forall r :: r in s ==> g.key(r) != k) ==> GroupRow(g, s + t, k) == GroupRow(g, t, k)
  {
    forall j | 0 <= j < |g.aggs|
      ensures (forall r :: r in t ==> g.key(r) != k) ==>
        Fold(g.key, g.aggs[j], k, s + t) == Fold(g.key, g.aggs[j], k, s)
      ensures (forall r :: r in s ==> g.key(r) != k) ==>
        Fold(g.key, g.aggs[j], k, s + t) == Fold(g.key, g.aggs[j], k, t)
    {
      var a := g.aggs[j];
      FoldAppend(g.key, a, k, s, t);
      FoldState(g.key, a, k, s);
      FoldState(g.key, a, k, t);
      CombineLaws(a.func, Fold(g.key, a, k, s), Fold(g.key, a, k, t), Unit(a.func));
      CombineLaws(a.func, Fold(g.key, a, k, t), Unit(a.func), Unit(a.func));
      if forall r :: r in t ==> g.key(r) != k {
        FoldAbsent(g.key, a, k, t);
      }
      if forall r :: r in s ==> g.key(r) != k {
        FoldAbsent(g.key, a, k, s);
      }
    }
  }

  /** Aggregating key-disjoint partitions one by one aggregates the whole. */
  lemma {:induction false} GroupPartitioned(g: Grouping, parts: seq<seq<Row>>)
    requires KeyDisjoint(g.key, parts)
    ensures Perm(Flatten(GroupEach(g, parts)), Group(g, Flatten(parts)))
  {
    var each := GroupEach(g, parts);
    if parts == [] {
      assert each == [];
    } else {
      KeyDisjointTail(g.key, parts);
      GroupPartitioned(g, parts[1..]);
      assert each[1..] == GroupEach(g, parts[1..]);
      GroupDisjointAppend(g, parts[0], Flatten(parts[1..]));
    }
  }

  lemma {:induction false} KeyDisjointTail(key: Row -> Row, parts: seq<seq<Row>>)
    requires KeyDisjoint(key, parts) && parts != []
    ensures KeyDisjoint(key, parts[1..])
    ensures forall r, q :: r in parts[0] && q in Flatten(parts[1..]) ==> key(r) != key(q)
  {
    var rest := parts[1..];
    assert forall i :: 0 <= i < |rest| ==> rest[i] == parts[i + 1];
    forall r, q | r in parts[0] && q in Flatten(rest) ensures key(r) != key(q) {
      FlattenMember(rest, q);
      var j :| 0 <= j < |rest| && q in rest[j];
      assert q in parts[j + 1];
    }
  }

  // ------------------------------------------------------ merging the states

  /**
   `final` merges the rows `partial` produces: it groups by their leading `width`
   cells and folds the state cells that follow, one aggregate each.
   */
  ghost predicate Merges(final: Grouping, partial: Grouping, width: nat) {
    && |final.aggs| == |partial.aggs|
    && (forall r :: |partial.key(r)| == width)
    && (forall r: Row :: |r| >= width ==> final.key(r) == r[..width])
    && (forall j :: 0 <= j < |final.aggs| ==> final.aggs[j].merging && final.aggs[j].func == partial.aggs[j].func)
    && (forall j, r: Row :: 0 <= j < |final.aggs| ==> final.aggs[j].input(r) == At(r, width + j))
  }

  lemma {:induction false} StateRow(final: Grouping, partial: Grouping, width: nat, part: seq<Row>, k: Row, j: nat)
    requires Merges(final, partial, width) && |k| == width && j < |final.aggs|
    ensures final.key(GroupRow(partial, part, k)) == k
    ensures final.aggs[j].Start(GroupRow(partial, part, k)) == Fold(partial.key, partial.aggs[j], k, part)
  {
    var r := GroupRow(partial, part, k);
    assert r[..width] == k;
    assert At(r, width + j) == Fold(partial.key, partial.aggs[j], k, part);
    FoldState(partial.key, partial.aggs[j], k, part);
  }

  lemma {:induction false} FoldGroupRows(
    final: Grouping, partial: Grouping, width: nat, part: seq<Row>, ks: seq<Row>, k: Row, j: nat)
    requires Merges(final, partial, width) && |k| == width && j < |final.aggs|
    requires forall l :: l in ks ==> |l| == width
    requires forall a, b :: 0 <= a < b < |ks| ==> ks[a] != ks[b]
    ensures Fold(final.key, final.aggs[j], k, FlatMap(RowOf(partial, part), ks))
         == if k in ks then Fold(partial.key, partial.aggs[j], k, part) else Unit(final.aggs[j].func)
  {
    if ks != [] {
      var rest := FlatMap(RowOf(partial, part), ks[1..]);
      FoldGroupRows(final, partial, width, part, ks[1..], k, j);
      FoldCons(final.key, final.aggs[j], k, GroupRow(partial, part, ks[0]), rest);
      StateRow(final, partial, width, part, ks[0], j);
      if ks[0] == k {
        assert k !in ks[1..];
        FoldState(partial.key, partial.aggs[j], k, part);
        CombineLaws(final.aggs[j].func, Fold(partial.key, partial.aggs[j], k, part), Unit(final.aggs[j].func), Unit(final.aggs[j].func));
      }
    }
  }

  /** The states of one part, merged, are the fold of that part. */
  lemma {:induction false} FoldGroup(final: Grouping, partial: Grouping, width: nat, part: seq<Row>, k: Row, j: nat)
    requires Merges(final, partial, width) && |k| == width && j < |final.aggs|
    ensures Fold(final.key, final.aggs[j], k, Group(partial, part)) == Fold(partial.key, partial.aggs[j], k, part)
  {
    FoldGroupRows(final, partial, width, part, Keys(partial.key, part), k, j);
    if k !in Keys(partial.key, part) {
      FoldAbsent(partial.key, partial.aggs[j], k, part);
    }
  }

  lemma {:induction false} FoldParts(
    final: Grouping, partial: Grouping, width: nat, parts: seq<seq<Row>>, k: Row, j: nat)
    requires Merges(final, partial, width) && |k| == width && j < |final.aggs|
    ensures Fold(final.key, final.aggs[j], k, Flatten(GroupEach(partial, parts)))
         == Fold(partial.key, partial.aggs[j], k, Flatten(parts))
  {
    var each := GroupEach(partial, parts);
    if parts == [] {
      assert each == [];
    } else {
      FoldParts(final, partial, width, parts[1..], k, j);
      assert each[1..] == GroupEach(partial, parts[1..]);
      FoldGroup(final, partial, width, parts[0], k, j);
      FoldAppend(final.key, final.aggs[j], k, each[0], Flatten(each[1..]));
      FoldAppend(partial.key, partial.aggs[j], k, parts[0], Flatten(parts[1..]));
    }
  }

  lemma {:induction false} GroupKeys(g: Grouping, rows: seq<Row>, r: Row)
    ensures r in Group(g, rows) <==> exists k :: k in Keys(g.key, rows) && r == GroupRow(g, rows, k)
  {
    FlatMapMember(RowOf(g, rows), Keys(g.key, rows), r);
    if k :| k in Keys(g.key, rows) && r == GroupRow(g, rows, k) {
      assert r in RowOf(g, rows)(k);
    }
  }

  lemma {:induction false} StateHasKey(final: Grouping, partial: Grouping, width: nat, part: seq<Row>, r: Row)
    requires Merges(final, partial, width) && r in Group(partial, part)
    ensures final.key(r) in Keys(partial.key, part)
  {
    GroupKeys(partial, part, r);
    var l :| l in Keys(partial.key, part) && r == GroupRow(partial, part, l);
    assert r[..width] == l;
  }

  lemma {:induction false} KeyHasState(final: Grouping, partial: Grouping, width: nat, part: seq<Row>, q: Row)
    requires Merges(final, partial, width) && q in part
    ensures exists r :: r in Group(partial, part) && final.key(r) == partial.key(q)
  {
    var k := partial.key(q);
    var r := GroupRow(partial, part, k);
    GroupKeys(partial, part, r);
    assert r[..width] == k;
  }

  lemma {:induction false} StateKeys(final: Grouping, partial: Grouping, width: nat, parts: seq<seq<Row>>, k: Row)
    requires Merges(final, partial, width)
    ensures k in Keys(final.key, Flatten(GroupEach(partial, parts))) <==> k in Keys(partial.key, Flatten(parts))
  {
    var each := GroupEach(partial, parts);
    if k in Keys(final.key, Flatten(each)) {
      var r :| r in Flatten(each) && final.key(r) == k;
      FlattenMember(each, r);
      var i :| 0 <= i < |each| && r in each[i];
      StateHasKey(final, partial, width, parts[i], r);
      var q :| q in parts[i] && partial.key(q) == k;
      FlattenMember(parts, q);
    }
    if k in Keys(partial.key, Flatten(parts)) {
      var q :| q in Flatten(parts) && partial.key(q) == k;
      FlattenMember(parts, q);
      var i :| 0 <= i < |parts| && q in parts[i];
      KeyHasState(final, partial, width, parts[i], q);
      var r :| r in each[i] && final.key(r) == k;
      FlattenMember(each, r);
    }
  }

  lemma {:induction false} MergedRow(final: Grouping, partial: Grouping, width: nat, parts: seq<seq<Row>>, k: Row)
    requires Merges(final, partial, width) && |k| == width
    ensures GroupRow(final, Flatten(GroupEach(partial, parts)), k) == GroupRow(partial, Flatten(parts), k)
  {
    forall j | 0 <= j < |final.aggs|
      ensures Fold(final.key, final.aggs[j], k, Flatten(GroupEach(partial, parts)))
           == Fold(partial.key, partial.aggs[j], k, Flatten(parts))
    {
      FoldParts(final, partial, width, parts, k, j);
    }
  }

  /**
   Two-phase aggregation is exact: however the source rows are split into parts
   and however the per-part states are shuffled, merging them gives the groups of
   a single pass over all rows.
   */
  lemma {:induction false} MergeIsExact(final: Grouping, partial: Grouping, width: nat, parts: seq<seq<Row>>,
                                        states: seq<Row>)
    requires Merges(final, partial, width)
    requires Perm(states, Flatten(GroupEach(partial, parts)))
    ensures Perm(Group(final, states), Group(partial, Flatten(parts)))
  {
    var all := Flatten(GroupEach(partial, parts));
    GroupPerm(final, states, all);
    forall k ensures k in Keys(final.key, all) <==> k in Keys(partial.key, Flatten(parts)) {
      StateKeys(final, partial, width, parts, k);
    }
    forall k | k in Keys(final.key, all) ensures GroupRow(final, all, k) == GroupRow(partial, Flatten(parts), k) {
      MergedRow(final, partial, width, parts, k);
    }
    GroupAgrees(final, all, partial, Flatten(parts));
  }
}
