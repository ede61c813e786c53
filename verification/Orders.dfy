/**
 The ascending order in which rows are sorted and merged: `NULL` first, values by
 type, keys of several columns in dictionary order.
 */
module Orders {
  import opened Core
  import opened Bags

  /** Dictionary order over `le`. */
  predicate Lex<T(==)>(le: (T, T) -> bool, s: seq<T>, t: seq<T>) {
    s == [] || (t != [] && if s[0] == t[0] then Lex(le, s[1..], t[1..]) else le(s[0], t[0]))
  }

  ghost predicate TotalOrder<T(!new)>(le: (T, T) -> bool) {
    && (forall a, b :: le(a, b) || le(b, a))
    && (forall a, b :: le(a, b) && le(b, a) ==> a == b)
    && (forall a, b, c :: le(a, b) && le(b, c) ==> le(a, c))
  }

  lemma {:induction false} LexTotal<T(!new)>(le: (T, T) -> bool, s: seq<T>, t: seq<T>)
    requires TotalOrder(le)
    ensures Lex(le, s, t) || Lex(le, t, s)
  {
    if s != [] && t != [] {
      LexTotal(le, s[1..], t[1..]);
    }
  }

  lemma {:induction false} LexAntisymmetric<T(!new)>(le: (T, T) -> bool, s: seq<T>, t: seq<T>)
    requires TotalOrder(le) && Lex(le, s, t) && Lex(le, t, s)
    ensures s == t
  {
    if s != [] && t != [] {
      assert s[0] == t[0];
      LexAntisymmetric(le, s[1..], t[1..]);
      assert s == [s[0]] + s[1..] && t == [t[0]] + t[1..];
    }
  }

  lemma {:induction false} LexTransitive<T(!new)>(le: (T, T) -> bool, s: seq<T>, t: seq<T>, u: seq<T>)
    requires TotalOrder(le) && Lex(le, s, t) && Lex(le, t, u)
    ensures Lex(le, s, u)
  {
    if s != [] && s[0] == t[0] && t[0] == u[0] {
      LexTransitive(le, s[1..], t[1..], u[1..]);
    }
  }

  /** Dictionary order under a total order is total. */
  lemma {:induction false} LexOrders<T(!new)>(le: (T, T) -> bool)
    requires TotalOrder(le)
    ensures TotalOrder((s: seq<T>, t: seq<T>) => Lex(le, s, t))
  {
    var lex := (s: seq<T>, t: seq<T>) => Lex(le, s, t);
    forall s, t ensures lex(s, t) || lex(t, s) {
      LexTotal(le, s, t);
    }
    forall s, t | lex(s, t) && lex(t, s) ensures s == t {
      LexAntisymmetric(le, s, t);
    }
    forall s, t, u | lex(s, t) && lex(t, u) ensures lex(s, u) {
      LexTransitive(le, s, t, u);
    }
  }

  lemma {:induction false} LexPrefix<T>(le: (T, T) -> bool, s: seq<T>, t: seq<T>, n: nat)
    requires |s| == |t| && n <= |s| && Lex(le, s, t)
    ensures Lex(le, s[..n], t[..n])
  {
    if n > 0 && s[0] == t[0] {
      LexPrefix(le, s[1..], t[1..], n - 1);
      assert s[..n][1..] == s[1..][..n - 1] && t[..n][1..] == t[1..][..n - 1];
    }
  }

  // ------------------------------------------------------------------ values

  predicate IntLe(x: int, y: int) {
    x <= y
  }

  /** A value as numbers whose dictionary order is the value's order. */
  function Code(v: Value): seq<int> {
    match v
    case Null => [0]
    case Bool(b) => [1, if b then 1 else 0]
    case I64(i) => [2, i]
    case F64(f) => [3, FloatRank(f)]
    case F32(g) => [4, if g < TWO_32 / 2 then g else TWO_32 / 2 - g - 1]
    case Str(s) => [5] + seq(|s|, i requires 0 <= i < |s| => s[i] as int)
    case Vec(v) => [6] + seq(|v|, i requires 0 <= i < |v| => v[i])
    case Blob(t, id) => [7, t, id]
  }

  /** Does `a` sort no later than `b`? */
  predicate Before(a: Value, b: Value) {
    Lex(IntLe, Code(a), Code(b))
  }

  lemma {:induction false} CodeOfText(a: Value, b: Value)
    requires a.Str? && b.Str? && Code(a) == Code(b)
    ensures a == b
  {
    assert |Code(a)| == 1 + |a.s| && |Code(b)| == 1 + |b.s|;
    forall i | 0 <= i < |a.s| ensures a.s[i] == b.s[i] {
      assert Code(a)[1 + i] == a.s[i] as int && Code(b)[1 + i] == b.s[i] as int;
    }
  }

  lemma {:induction false} CodeOfVector(a: Value, b: Value)
    requires a.Vec? && b.Vec? && Code(a) == Code(b)
    ensures a == b
  {
    assert |Code(a)| == 1 + |a.v| && |Code(b)| == 1 + |b.v|;
    forall i | 0 <= i < |a.v| ensures a.v[i] == b.v[i] {
      assert Code(a)[1 + i] == a.v[i] && Code(b)[1 + i] == b.v[i];
    }
  }

  lemma {:induction false} CodeInjective(a: Value, b: Value)
    requires Code(a) == Code(b)
    ensures a == b
  {
    assert Code(a)[0] == Code(b)[0];
    if a.Str? {
      CodeOfText(a, b);
    } else if a.Vec? {
      CodeOfVector(a, b);
    } else if !a.Null? {
      assert Code(a)[1] == Code(b)[1];
      if a.Blob? {
        assert Code(a)[2] == Code(b)[2];
      }
    }
  }

  lemma {:induction false} BeforeOrders()
    ensures TotalOrder(Before)
  {
    var lex := (s: seq<int>, t: seq<int>) => Lex(IntLe, s, t);
    LexOrders(IntLe);
    forall a, b ensures Before(a, b) || Before(b, a) {
      assert lex(Code(a), Code(b)) || lex(Code(b), Code(a));
    }
    forall a, b | Before(a, b) && Before(b, a) ensures a == b {
      assert lex(Code(a), Code(b)) && lex(Code(b), Code(a));
      CodeInjective(a, b);
    }
    forall a, b, c | Before(a, b) && Before(b, c) ensures Before(a, c) {
      assert lex(Code(a), Code(b)) && lex(Code(b), Code(c));
    }
  }

  // -------------------------------------------------------------------- rows

  /** Is key `a` no later than key `b`? */
  predicate Leq(a: Row, b: Row) {
    Lex(Before, a, b)
  }

  lemma {:induction false} LeqTotal(a: Row, b: Row)
    ensures Leq(a, b) || Leq(b, a)
  {
    BeforeOrders();
    LexTotal(Before, a, b);
  }

  lemma {:induction false} LeqSame(a: Row)
    ensures Leq(a, a)
  {
    LeqTotal(a, a);
  }

  lemma {:induction false} LeqAntisymmetric(a: Row, b: Row)
    requires Leq(a, b) && Leq(b, a)
    ensures a == b
  {
    BeforeOrders();
    LexAntisymmetric(Before, a, b);
  }

  lemma {:induction false} LeqTransitive(a: Row, b: Row, c: Row)
    requires Leq(a, b) && Leq(b, c)
    ensures Leq(a, c)
  {
    BeforeOrders();
    LexTransitive(Before, a, b, c);
  }

  /** Rows in ascending order of their keys. */
  ghost predicate SortedBy(key: Row -> Row, rows: seq<Row>) {
    forall i, j :: 0 <= i < j < |rows| ==> Leq(key(rows[i]), key(rows[j]))
  }

  lemma {:induction false} SortedAppend(key: Row -> Row, s: seq<Row>, t: seq<Row>)
    requires SortedBy(key, s) && SortedBy(key, t)
    requires forall x, y :: x in s && y in t ==> Leq(key(x), key(y))
    ensures SortedBy(key, s + t)
  {
    forall i, j | 0 <= i < j < |s + t| ensures Leq(key((s + t)[i]), key((s + t)[j])) {
      if j < |s| {
      } else if i >= |s| {
        assert (s + t)[i] == t[i - |s|] && (s + t)[j] == t[j - |s|];
      } else {
        assert (s + t)[i] in s && (s + t)[j] in t;
      }
    }
  }

  lemma {:induction false} SortedTail(key: Row -> Row, rows: seq<Row>)
    requires SortedBy(key, rows) && rows != []
    ensures SortedBy(key, rows[1..])
    ensures forall r :: r in rows ==> Leq(key(rows[0]), key(r))
  {
    forall r | r in rows ensures Leq(key(rows[0]), key(r)) {
      var i :| 0 <= i < |rows| && rows[i] == r;
      if i == 0 {
        LeqSame(key(r));
      }
    }
  }

  /** Rows that all share one key are in order. */
  lemma {:induction false} SortedSame(key: Row -> Row, k: Row, rows: seq<Row>)
    requires forall r :: r in rows ==> key(r) == k
    ensures SortedBy(key, rows)
  {
    LeqSame(k);
  }

  function Insert(key: Row -> Row, r: Row, rows: seq<Row>): seq<Row> {
    if rows == [] || Leq(key(r), key(rows[0])) then [r] + rows
    else [rows[0]] + Insert(key, r, rows[1..])
  }

  /** Some ascending arrangement of `rows`. */
  function Arranged(key: Row -> Row, rows: seq<Row>): seq<Row> {
    if rows == [] then [] else Insert(key, rows[0], Arranged(key, rows[1..]))
  }

  lemma {:induction false} InsertPerm(key: Row -> Row, r: Row, rows: seq<Row>)
    ensures Perm(Insert(key, r, rows), [r] + rows)
  {
    if rows != [] && !Leq(key(r), key(rows[0])) {
      InsertPerm(key, r, rows[1..]);
      assert rows == [rows[0]] + rows[1..];
    }
  }

  lemma {:induction false} InsertSorted(key: Row -> Row, r: Row, rows: seq<Row>)
    requires SortedBy(key, rows)
    ensures SortedBy(key, Insert(key, r, rows))
  {
    if rows == [] {
    } else if Leq(key(r), key(rows[0])) {
      SortedTail(key, rows);
      forall x | x in rows ensures Leq(key(r), key(x)) {
        LeqTransitive(key(r), key(rows[0]), key(x));
      }
      SortedAppend(key, [r], rows);
    } else {
      LeqTotal(key(r), key(rows[0]));
      SortedTail(key, rows);
      InsertSorted(key, r, rows[1..]);
      InsertPerm(key, r, rows[1..]);
      forall x | x in Insert(key, r, rows[1..]) ensures Leq(key(rows[0]), key(x)) {
        assert x in multiset(Insert(key, r, rows[1..]));
        assert x in [r] + rows[1..];
      }
      SortedAppend(key, [rows[0]], Insert(key, r, rows[1..]));
    }
  }

  lemma {:induction false} ArrangedSorts(key: Row -> Row, rows: seq<Row>)
    ensures Perm(Arranged(key, rows), rows) && SortedBy(key, Arranged(key, rows))
  {
    if rows != [] {
      ArrangedSorts(key, rows[1..]);
      InsertPerm(key, rows[0], Arranged(key, rows[1..]));
      InsertSorted(key, rows[0], Arranged(key, rows[1..]));
      assert rows == [rows[0]] + rows[1..];
    }
  }

  // ---------------------------------------------------------- keeping an order

  /** `out` lists, row by row, what `f` makes of each row, in any order within a row. */
  ghost predicate InOrder(f: Row -> seq<Row>, rows: seq<Row>, out: seq<Row>)
    decreases rows
  {
    if rows == [] then out == []
    else
      var n := |f(rows[0])|;
      n <= |out| && Perm(out[..n], f(rows[0])) && InOrder(f, rows[1..], out[n..])
  }

  lemma {:induction false} FlatMapInOrder(f: Row -> seq<Row>, rows: seq<Row>)
    ensures InOrder(f, rows, FlatMap(f, rows))
  {
    if rows != [] {
      FlatMapInOrder(f, rows[1..]);
      var (n, out) := (|f(rows[0])|, FlatMap(f, rows));
      assert out[..n] == f(rows[0]) && out[n..] == FlatMap(f, rows[1..]);
    }
  }

  lemma {:induction false} InOrderPerm(f: Row -> seq<Row>, rows: seq<Row>, out: seq<Row>)
    requires InOrder(f, rows, out)
    ensures Perm(out, FlatMap(f, rows))
  {
    if rows != [] {
      var n := |f(rows[0])|;
      InOrderPerm(f, rows[1..], out[n..]);
      assert out == out[..n] + out[n..];
    }
  }

  /** What is listed row by row is sorted by whatever the rows were sorted by. */
  lemma {:induction false} InOrderSorted(f: Row -> seq<Row>, rows: seq<Row>, out: seq<Row>, key: Row -> Row,
                                         key': Row -> Row)
    requires InOrder(f, rows, out) && SortedBy(key, rows)
    requires forall x, r :: x in rows && r in f(x) ==> key'(r) == key(x)
    ensures SortedBy(key', out)
  {
    if rows != [] {
      var n := |f(rows[0])|;
      SortedTail(key, rows);
      InOrderSorted(f, rows[1..], out[n..], key, key');
      BlockMembers(f, rows[0], out[..n], key, key');
      SortedSame(key', key(rows[0]), out[..n]);
      forall r | r in out[n..] ensures Leq(key(rows[0]), key'(r)) {
        InOrderMember(f, rows[1..], out[n..], r);
      }
      SortedAppend(key', out[..n], out[n..]);
      assert out == out[..n] + out[n..];
    }
  }

  lemma {:induction false} BlockMembers(f: Row -> seq<Row>, x: Row, block: seq<Row>, key: Row -> Row, key': Row -> Row)
    requires Perm(block, f(x)) && forall r :: r in f(x) ==> key'(r) == key(x)
    ensures forall r :: r in block ==> key'(r) == key(x)
  {
    forall r | r in block ensures key'(r) == key(x) {
      assert r in multiset(block);
    }
  }

  lemma {:induction false} InOrderMember(f: Row -> seq<Row>, rows: seq<Row>, out: seq<Row>, r: Row)
    requires InOrder(f, rows, out) && r in out
    ensures exists x :: x in rows && r in f(x)
  {
    InOrderPerm(f, rows, out);
    assert r in multiset(out);
    FlatMapMember(f, rows, r);
  }
}
