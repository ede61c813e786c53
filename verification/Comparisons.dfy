/**
 What comparisons mean, apart from how they are computed: integers by value, floats
 by the numbers their bit patterns stand for, `NULL` unknown. The filter kernel
 inherits it: opposite comparisons split the rows between them.
 */
module Comparisons {
  import opened Core
  import opened Bags
  import opened Plans
  import opened Execs
  import opened Batches
  import opened FilterKernel

  // -------------------------------------------------------------------- integers

  lemma {:induction false} IntegersCompare(x: i64, y: i64)
    ensures CompareValues(Lt, I64(x), I64(y)) == Some(x < y) && CompareValues(LtEq, I64(x), I64(y)) == Some(x <= y)
    ensures CompareValues(Gt, I64(x), I64(y)) == Some(x > y) && CompareValues(GtEq, I64(x), I64(y)) == Some(x >= y)
    ensures CompareValues(Eq, I64(x), I64(y)) == Some(x == y)
  {
  }

  // ---------------------------------------------------------------------- floats

  /** `k` doubled `n` times. */
  function Shift(k: nat, n: nat): nat {
    if n == 0 then k else 2 * Shift(k, n - 1)
  }

  const TWO_52: nat := 0x10_0000_0000_0000
  const INFINITY: u64 := 0x7ff0_0000_0000_0000

  /** A binary64 magnitude in units of the least positive number, 2^-1074. */
  function Magnitude(bits: nat): nat {
    var (exponent, fraction) := (bits / TWO_52, bits % TWO_52);
    if exponent == 0 then fraction else Shift(TWO_52 + fraction, exponent - 1)
  }

  /** A pattern without its sign bit. */
  function Unsigned(f: u64): nat {
    if f < TWO_63 then f else f - TWO_63
  }

  /** The number a finite pattern stands for, in the same units. */
  function Number(f: u64): int {
    var sign := if f < TWO_63 then 1 else -1;
    sign * Magnitude(Unsigned(f))
  }

  predicate Finite(f: u64) {
    Unsigned(f) < INFINITY
  }

  predicate IsNaN(f: u64) {
    Unsigned(f) > INFINITY
  }

  lemma {:induction false} ShiftKeeps(a: nat, b: nat, n: nat)
    requires a < b
    ensures Shift(a, n) < Shift(b, n)
  {
    if n > 0 {
      ShiftKeeps(a, b, n - 1);
    }
  }

  lemma {:induction false} ShiftGrows(k: nat, m: nat, n: nat)
    requires m <= n
    ensures Shift(k, m) <= Shift(k, n)
    decreases n
  {
    if m < n {
      ShiftGrows(k, m, n - 1);
    }
  }

  lemma {:induction false} ShiftDoubled(k: nat, n: nat)
    ensures Shift(2 * k, n) == Shift(k, n + 1)
  {
    if n > 0 {
      ShiftDoubled(k, n - 1);
    }
  }

  /** The largest fraction at one exponent stays below the smallest at a later one. */
  lemma {:induction false} ExponentDecides(a: nat, b: nat, m: nat, n: nat)
    requires a < 2 * TWO_52 <= 2 * b && m < n
    ensures Shift(a, m) < Shift(b, n)
  {
    ShiftKeeps(a, 2 * TWO_52, m);
    ShiftDoubled(TWO_52, m);
    ShiftGrows(TWO_52, m + 1, n);
    if TWO_52 < b {
      ShiftKeeps(TWO_52, b, n);
    }
  }

  lemma {:induction false} MagnitudeGrows(a: nat, b: nat)
    requires a < b
    ensures Magnitude(a) < Magnitude(b)
  {
    var (e, m) := (a / TWO_52, a % TWO_52);
    var (e', m') := (b / TWO_52, b % TWO_52);
    assert e < e' || (e == e' && m < m');
    if e == e' {
      if e > 0 {
        ShiftKeeps(TWO_52 + m, TWO_52 + m', e - 1);
      }
    } else if e == 0 {
      ShiftGrows(TWO_52 + m', 0, e' - 1);
    } else {
      ExponentDecides(TWO_52 + m, TWO_52 + m', e - 1, e' - 1);
    }
  }

  lemma {:induction false} ZeroLeast(x: nat)
    ensures Magnitude(x) == 0 <==> x == 0
  {
    if x > 0 {
      MagnitudeGrows(0, x);
    }
  }

  lemma {:induction false} MagnitudeIff(x: nat, y: nat)
    ensures Magnitude(x) < Magnitude(y) <==> x < y
  {
    if x < y {
      MagnitudeGrows(x, y);
    } else if y < x {
      MagnitudeGrows(y, x);
    }
  }

  /** Patterns compare as the numbers they stand for; of the two zeros the negative comes first. */
  lemma {:induction false} FloatsCompare(a: u64, b: u64)
    requires Finite(a) && Finite(b)
    ensures CompareValues(Lt, F64(a), F64(b)) == Some(Number(a) < Number(b) || (a == TWO_63 && b == 0))
    ensures CompareValues(Eq, F64(a), F64(b)) == Some(a == b)
  {
    var (x, y) := (Unsigned(a), Unsigned(b));
    MagnitudeIff(x, y);
    MagnitudeIff(y, x);
    ZeroLeast(x);
    ZeroLeast(y);
  }

  /** Infinities enclose the finite numbers, and NaNs the infinities. */
  lemma {:induction false} SpecialsCompare(f: u64, nan: u64)
    requires Finite(f) && IsNaN(nan)
    ensures CompareValues(Lt, F64(f), F64(INFINITY)) == Some(true)
    ensures CompareValues(Lt, F64(INFINITY + TWO_63), F64(f)) == Some(true)
    ensures nan < TWO_63 ==> CompareValues(Lt, F64(INFINITY), F64(nan)) == Some(true)
    ensures nan >= TWO_63 ==> CompareValues(Lt, F64(nan), F64(INFINITY + TWO_63)) == Some(true)
  {
  }

  // ------------------------------------------------------------------- both kinds

  predicate SameKind(a: Value, b: Value) {
    (a.I64? && b.I64?) || (a.F64? && b.F64?)
  }

  lemma {:induction false} RankTellsApart(a: Value, b: Value)
    requires SameKind(a, b)
    ensures Rank(a).Some? && Rank(b).Some? && (Rank(a) == Rank(b) <==> a == b)
  {
  }

  /** Of two cells of one kind exactly one is less, or they are equal; the weak comparisons negate the strong ones. */
  lemma {:induction false} Trichotomy(a: Value, b: Value)
    requires SameKind(a, b)
    ensures CompareValues(Eq, a, b) == Some(a == b)
    ensures CompareValues(Lt, a, b) == Some(true) <==> a != b && CompareValues(Gt, a, b) != Some(true)
    ensures CompareValues(Gt, a, b) == CompareValues(Lt, b, a)
    ensures CompareValues(LtEq, a, b) == Negate(CompareValues(Gt, a, b)) != None
    ensures CompareValues(GtEq, a, b) == Negate(CompareValues(Lt, a, b)) != None
  {
    RankTellsApart(a, b);
  }

  lemma {:induction false} LessTransitive(a: Value, b: Value, c: Value)
    requires CompareValues(Lt, a, b) == Some(true) && CompareValues(Lt, b, c) == Some(true)
    ensures CompareValues(Lt, a, c) == Some(true)
  {
  }

  /** A comparison is unknown exactly when a side is not a number. */
  lemma {:induction false} UnknownIff(op: Comparison, a: Value, b: Value)
    ensures CompareValues(op, a, b) == None <==> !((a.I64? || a.F64?) && (b.I64? || b.F64?))
  {
  }

  // ------------------------------------------------------------------ conjunctions

  /** True needs both, false needs one, anything else is unknown. */
  lemma {:induction false} ConjunctionTable(a: Option<bool>, b: Option<bool>)
    ensures KleeneAnd(a, b) == Some(true) <==> a == Some(true) && b == Some(true)
    ensures KleeneAnd(a, b) == Some(false) <==> a == Some(false) || b == Some(false)
  {
    OneOfThree(a);
    OneOfThree(b);
  }

  lemma {:induction false} OneOfThree(t: Option<bool>)
    ensures t == None || t == Some(true) || t == Some(false)
  {
    if t.Some? {
      assert t.value == true || t.value == false;
      assert t == Some(t.value);
    }
  }

  /** The connectives of a planned expression: disjunction is dual to conjunction, inequality negates equality. */
  lemma {:induction false} ExpressionConnectives(l: Expr, r: Expr, row: Row)
    ensures Eval(Binary(OpAnd, l, r), row) == Bool(true) <==> Eval(l, row) == Bool(true) && Eval(r, row) == Bool(true)
    ensures Eval(Binary(OpOr, l, r), row) == Bool(true) <==> Eval(l, row) == Bool(true) || Eval(r, row) == Bool(true)
    ensures Eval(Binary(OpOr, l, r), row) == Bool(false) <==> Eval(l, row) == Bool(false) && Eval(r, row) == Bool(false)
    ensures Eval(Binary(OpNotEq, l, r), row) == FromTruth(Negate(CompareValues(Eq, Eval(l, row), Eval(r, row))))
  {
    var (a, b) := (AsTruth(Eval(l, row)), AsTruth(Eval(r, row)));
    OneOfThree(a);
    OneOfThree(b);
    ConjunctionTable(a, b);
    ConjunctionTable(Negate(a), Negate(b));
  }

  /** The comparisons of a predicate, left to right. */
  function Leaves(p: Predicate): seq<Predicate> {
    match p
    case Compare(_, _, _) => [p]
    case And(l, r) => Leaves(l) + Leaves(r)
  }

  ghost predicate AllTrue(leaves: seq<Predicate>, row: Row) {
    forall i :: 0 <= i < |leaves| ==> EvalPredicate(leaves[i], row) == Some(true)
  }

  ghost predicate OneFalse(leaves: seq<Predicate>, row: Row) {
    exists i :: 0 <= i < |leaves| && EvalPredicate(leaves[i], row) == Some(false)
  }

  lemma {:induction false} AllTrueAppend(s: seq<Predicate>, t: seq<Predicate>, row: Row)
    ensures AllTrue(s + t, row) <==> AllTrue(s, row) && AllTrue(t, row)
    ensures OneFalse(s + t, row) <==> OneFalse(s, row) || OneFalse(t, row)
  {
    if AllTrue(s + t, row) {
      assert forall i :: 0 <= i < |s| ==> (s + t)[i] == s[i];
      assert forall i :: 0 <= i < |t| ==> (s + t)[|s| + i] == t[i];
    }
    if OneFalse(s, row) {
      var i :| 0 <= i < |s| && EvalPredicate(s[i], row) == Some(false);
      assert (s + t)[i] == s[i];
    }
    if OneFalse(t, row) {
      var i :| 0 <= i < |t| && EvalPredicate(t[i], row) == Some(false);
      assert (s + t)[|s| + i] == t[i];
    }
  }

  /** A predicate keeps a row if and only if every one of its comparisons is true of it. */
  lemma {:induction false} PredicateIsConjunction(p: Predicate, row: Row)
    ensures EvalPredicate(p, row) == Some(true) <==> AllTrue(Leaves(p), row)
    ensures EvalPredicate(p, row) == Some(false) <==> OneFalse(Leaves(p), row)
    ensures |Leaves(p)| == p.LeafCount() == |p.Columns()|
    ensures forall i :: 0 <= i < |Leaves(p)| ==> Leaves(p)[i].Compare? && p.Columns()[i] == Leaves(p)[i].column
  {
    match p
    case Compare(_, _, _) =>
      assert AllTrue([p], row) <==> EvalPredicate([p][0], row) == Some(true);
      assert OneFalse([p], row) <==> EvalPredicate([p][0], row) == Some(false);
    case And(l, r) =>
      PredicateIsConjunction(l, row);
      PredicateIsConjunction(r, row);
      AllTrueAppend(Leaves(l), Leaves(r), row);
      ConjunctionTable(EvalPredicate(l, row), EvalPredicate(r, row));
  }

  // -------------------------------------------------------------------- the kernel

  function NonNullFn(c: nat, cols: seq<nat>): Row -> seq<Row> {
    (r: Row) => if At(r, c).Null? then [] else [Pick(r, cols)]
  }

  /** If on every row one function yields what two others yield between them, so it does on all rows. */
  lemma {:induction false} FlatMapSplits(f: Row -> seq<Row>, g: Row -> seq<Row>, h: Row -> seq<Row>, rows: seq<Row>)
    requires forall x :: x in rows ==> Perm(f(x) + g(x), h(x))
    ensures Perm(FlatMap(f, rows) + FlatMap(g, rows), FlatMap(h, rows))
  {
    if rows != [] {
      FlatMapSplits(f, g, h, rows[1..]);
      assert Perm(f(rows[0]) + g(rows[0]), h(rows[0]));
    }
  }

  predicate Opposites(op: Comparison, other: Comparison) {
    (op.Lt? && other.GtEq?) || (op.Gt? && other.LtEq?)
  }

  lemma {:induction false} RowSplits(b: Batch, c: nat, op: Comparison, other: Comparison, lit: Literal, cols: seq<nat>,
                                     i: nat)
    requires Valid(b) && i < b.rows && c < |b.schema| && b.schema[c].dtype == lit.Type() && Opposites(op, other)
    ensures var row := RowAt(b, i);
            PredicateFn(Compare(c, op, lit), cols)(row) + PredicateFn(Compare(c, other, lit), cols)(row)
            == NonNullFn(c, cols)(row)
  {
    var cell := At(RowAt(b, i), c);
    assert cell == b.columns[c][i] && HasType(cell, b.schema[c].dtype);
    if !cell.Null? {
      Trichotomy(cell, lit.AsValue());
    }
  }

  /** `c < v` and `c >= v`, and `c > v` and `c <= v`, split the rows where `c` is not `NULL`. */
  lemma {:induction false} FilterSplits(b: Batch, c: nat, op: Comparison, other: Comparison, lit: Literal,
                                        cols: seq<nat>)
    requires Valid(b) && c < |b.schema| && b.schema[c].dtype == lit.Type() && ColsInRange(cols, |b.columns|)
    requires Opposites(op, other)
    ensures var (one, two) := (FilterProject(b, Compare(c, op, lit), cols), FilterProject(b, Compare(c, other, lit), cols));
            && one.Ok? && two.Ok?
            && Perm(RowsOf(one.value) + RowsOf(two.value), FlatMap(NonNullFn(c, cols), RowsOf(b)))
  {
    var (p, q) := (Compare(c, op, lit), Compare(c, other, lit));
    FilterProjectOk(b, p, cols);
    FilterProjectOk(b, q, cols);
    FilterProjectRows(b, p, cols);
    FilterProjectRows(b, q, cols);
    forall x | x in RowsOf(b)
      ensures Perm(PredicateFn(p, cols)(x) + PredicateFn(q, cols)(x), NonNullFn(c, cols)(x))
    {
      var i :| 0 <= i < b.rows && RowsOf(b)[i] == x;
      RowSplits(b, c, op, other, lit, cols, i);
    }
    FlatMapSplits(PredicateFn(p, cols), PredicateFn(q, cols), NonNullFn(c, cols), RowsOf(b));
  }

  function LessFn(c: nat, v: i64, cols: seq<nat>): Row -> seq<Row> {
    (r: Row) => if At(r, c).I64? && At(r, c).i < v then [Pick(r, cols)] else []
  }

  /** `c < v` on an integer column keeps the rows whose cell is a smaller integer, in order, and no other. */
  lemma {:induction false} FilterLess(b: Batch, c: nat, v: i64, cols: seq<nat>)
    requires Valid(b) && c < |b.schema| && b.schema[c].dtype == Int64 && ColsInRange(cols, |b.columns|)
    ensures FilterProject(b, Compare(c, Lt, IntLit(v)), cols).Ok?
    ensures RowsOf(FilterProject(b, Compare(c, Lt, IntLit(v)), cols).value) == FlatMap(LessFn(c, v, cols), RowsOf(b))
  {
    var p := Compare(c, Lt, IntLit(v));
    FilterProjectOk(b, p, cols);
    FilterProjectRows(b, p, cols);
    forall x | x in RowsOf(b) ensures PredicateFn(p, cols)(x) == LessFn(c, v, cols)(x) {
      var i :| 0 <= i < b.rows && RowsOf(b)[i] == x;
      var cell := At(x, c);
      assert cell == b.columns[c][i] && HasType(cell, b.schema[c].dtype);
      if cell.I64? {
        IntegersCompare(cell.i, v);
      }
    }
    FlatMapExt(PredicateFn(p, cols), LessFn(c, v, cols), RowsOf(b));
  }
}
