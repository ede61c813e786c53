/**
 The merge join as it runs on the CPU: two cursors over two inputs, each moving
 forward only. It gives the join when both inputs are sorted by the join key.
 When only the right one is, this module says exactly when rows are lost.
 */
module Merging {
  import opened Core
  import opened Bags
  import opened Orders

  datatype Order = Less | Equal | Greater

  /** Key against key, column by column; without `nullsMatch` a `NULL` pair counts as less. */
  function CompareKeys(nullsMatch: bool, a: Row, b: Row): Order {
    if a == [] || b == [] then Equal
    else if a[0] == b[0] then
      if a[0].Null? && !nullsMatch then Less else CompareKeys(nullsMatch, a[1..], b[1..])
    else if Before(a[0], b[0]) then Less
    else Greater
  }

  /** The key of either side, and the rows a matching pair yields. */
  datatype Merger = Merger(leftKey: Row -> Row, rightKey: Row -> Row, nullsMatch: bool, emit: (Row, Row) -> seq<Row>) {
    function Compare(x: Row, y: Row): Order {
      CompareKeys(nullsMatch, leftKey(x), rightKey(y))
    }

    /** Keys are equally wide, and only pairs with equal keys match. */
    ghost predicate Coherent() {
      forall x, y :: |leftKey(x)| == |rightKey(y)| && (emit(x, y) != [] ==> Compare(x, y).Equal?)
    }
  }

  /** The leading rows with key `k`, which the merge holds while the left cursor stays on `k`. */
  function Held(key: Row -> Row, k: Row, rows: seq<Row>): seq<Row> {
    if rows == [] || key(rows[0]) != k then [] else [rows[0]] + Held(key, k, rows[1..])
  }

  function Merge(j: Merger, xs: seq<Row>, ys: seq<Row>): seq<Row>
    decreases |xs| + |ys|
  {
    if xs == [] || ys == [] then []
    else match j.Compare(xs[0], ys[0])
      case Less => Merge(j, xs[1..], ys)
      case Greater => Merge(j, xs, ys[1..])
      case Equal => PairRow(j.emit, xs[0], Held(j.rightKey, j.rightKey(ys[0]), ys)) + Merge(j, xs[1..], ys)
  }

  // ------------------------------------------------------------- comparisons

  lemma {:induction false} CompareMeans(nullsMatch: bool, a: Row, b: Row)
    requires |a| == |b|
    ensures CompareKeys(nullsMatch, a, b).Equal? ==> a == b
    ensures CompareKeys(nullsMatch, a, b).Greater? ==> Leq(b, a) && a != b
  {
    if a != [] {
      assert a == [a[0]] + a[1..] && b == [b[0]] + b[1..];
      if a[0] == b[0] {
        CompareMeans(nullsMatch, a[1..], b[1..]);
      } else {
        BeforeOrders();
      }
    }
  }

  /** Where `a` compares less than `b`, no key from `b` up to `a` can match. */
  lemma {:induction false} LessBetween(nullsMatch: bool, a: Row, b: Row, k: Row)
    requires |a| == |b| == |k| && CompareKeys(nullsMatch, a, b).Less? && Leq(b, k) && Leq(k, a)
    ensures !CompareKeys(nullsMatch, k, k).Equal?
  {
    BeforeOrders();
    if a[0] == b[0] {
      assert k[0] == a[0];
      if !a[0].Null? || nullsMatch {
        LessBetween(nullsMatch, a[1..], b[1..], k[1..]);
      }
    } else {
      LeqTransitive(b, k, a);
      assert false;
    }
  }

  // ------------------------------------------------------------ what is skipped

  predicate HasMatch(j: Merger, x: Row, ys: seq<Row>) {
    exists y :: y in ys && j.emit(x, y) != []
  }

  lemma {:induction false} MatchMeans(j: Merger, x: Row, y: Row)
    requires j.Coherent() && j.emit(x, y) != []
    ensures j.leftKey(x) == j.rightKey(y) && CompareKeys(j.nullsMatch, j.leftKey(x), j.leftKey(x)).Equal?
  {
    CompareMeans(j.nullsMatch, j.leftKey(x), j.rightKey(y));
  }

  /** Past a left row that compares less, a key between the two heads has no match. */
  lemma {:induction false} LessSkips(j: Merger, x: Row, xs: seq<Row>, ys: seq<Row>)
    requires j.Coherent() && SortedBy(j.rightKey, ys) && xs != [] && ys != [] && j.Compare(xs[0], ys[0]).Less?
    requires Leq(j.leftKey(x), j.leftKey(xs[0]))
    ensures !HasMatch(j, x, ys)
  {
    if y :| y in ys && j.emit(x, y) != [] {
      MatchMeans(j, x, y);
      SortedTail(j.rightKey, ys);
      assert |j.leftKey(x)| == |j.rightKey(ys[0])| == |j.leftKey(xs[0])|;
      LessBetween(j.nullsMatch, j.leftKey(xs[0]), j.rightKey(ys[0]), j.leftKey(x));
      assert false;
    }
  }

  lemma {:induction false} NoMatchNoRows(j: Merger, x: Row, ys: seq<Row>)
    requires !HasMatch(j, x, ys)
    ensures PairRow(j.emit, x, ys) == []
  {
    PairRowEmpty(j.emit, x, ys);
  }

  lemma {:induction false} HeldSplits(key: Row -> Row, k: Row, ys: seq<Row>)
    ensures |Held(key, k, ys)| <= |ys| && Held(key, k, ys) == ys[..|Held(key, k, ys)|]
    ensures var n := |Held(key, k, ys)|; n < |ys| ==> key(ys[n]) != k
  {
    if ys != [] && key(ys[0]) == k {
      HeldSplits(key, k, ys[1..]);
      assert ys == [ys[0]] + ys[1..];
    }
  }

  /** A left row's output is what it pairs with in the held rows, and no more than its share of the join. */
  lemma {:induction false} HeldWithin(j: Merger, x: Row, ys: seq<Row>, k: Row)
    ensures |PairRow(j.emit, x, Held(j.rightKey, k, ys))| <= |PairRow(j.emit, x, ys)|
  {
    HeldSplits(j.rightKey, k, ys);
    var n := |Held(j.rightKey, k, ys)|;
    assert ys == ys[..n] + ys[n..];
    PairRowAppend(j.emit, x, ys[..n], ys[n..]);
  }

  /** On sorted rows the held rows are all that can match. */
  lemma {:induction false} HeldSuffices(j: Merger, x: Row, ys: seq<Row>)
    requires j.Coherent() && SortedBy(j.rightKey, ys) && ys != [] && j.Compare(x, ys[0]).Equal?
    ensures PairRow(j.emit, x, Held(j.rightKey, j.rightKey(ys[0]), ys)) == PairRow(j.emit, x, ys)
  {
    var k := j.rightKey(ys[0]);
    HeldSplits(j.rightKey, k, ys);
    CompareMeans(j.nullsMatch, j.leftKey(x), k);
    var n := |Held(j.rightKey, k, ys)|;
    assert ys == ys[..n] + ys[n..];
    PairRowAppend(j.emit, x, ys[..n], ys[n..]);
    forall y | y in ys[n..] ensures j.emit(x, y) == [] {
      if j.emit(x, y) != [] {
        MatchMeans(j, x, y);
        BeyondHeld(j.rightKey, ys, n, y);
        assert false;
      }
    }
    PairRowEmpty(j.emit, x, ys[n..]);
  }

  lemma {:induction false} BeyondHeld(key: Row -> Row, ys: seq<Row>, n: nat, y: Row)
    requires SortedBy(key, ys) && 0 < n <= |ys| && y in ys[n..] && key(ys[n]) != key(ys[0])
    ensures key(y) != key(ys[0])
  {
    var i :| n <= i < |ys| && ys[i] == y;
    if key(y) == key(ys[0]) {
      if n < i {
        assert Leq(key(ys[0]), key(ys[n])) && Leq(key(ys[n]), key(ys[i]));
        LeqAntisymmetric(key(ys[0]), key(ys[n]));
      }
      assert false;
    }
  }

  /** A right row that nothing matches can be left out. */
  lemma {:induction false} PairSkip(m: (Row, Row) -> seq<Row>, xs: seq<Row>, ys: seq<Row>)
    requires ys != [] && forall x :: x in xs ==> m(x, ys[0]) == []
    ensures Pair(m, xs, ys) == Pair(m, xs, ys[1..])
  {
    if xs != [] {
      PairSkip(m, xs[1..], ys);
      PairRowSkip(m, xs[0], ys);
    }
  }

  lemma {:induction false} PairRowSkip(m: (Row, Row) -> seq<Row>, x: Row, ys: seq<Row>)
    requires ys != [] && m(x, ys[0]) == []
    ensures PairRow(m, x, ys) == PairRow(m, x, ys[1..])
  {
  }

  /** A right row that something matches cannot. */
  lemma {:induction false} PairShrinks(m: (Row, Row) -> seq<Row>, xs: seq<Row>, ys: seq<Row>)
    requires ys != []
    ensures |Pair(m, xs, ys[1..])| <= |Pair(m, xs, ys)|
    ensures (exists x :: x in xs && m(x, ys[0]) != []) ==> |Pair(m, xs, ys[1..])| < |Pair(m, xs, ys)|
  {
    if xs != [] {
      PairShrinks(m, xs[1..], ys);
      assert PairRow(m, xs[0], ys) == m(xs[0], ys[0]) + PairRow(m, xs[0], ys[1..]);
    }
  }

  // ---------------------------------------------------------------- overtaking

  /** `b` would be passed by the left cursor before `a`, which has a smaller key and a match. */
  ghost predicate Passes(j: Merger, b: Row, a: Row, ys: seq<Row>) {
    Leq(j.leftKey(a), j.leftKey(b)) && j.leftKey(a) != j.leftKey(b) && HasMatch(j, a, ys)
  }

  /** Some left row with a match comes after a left row with a greater key. */
  ghost predicate Overtaken(j: Merger, xs: seq<Row>, ys: seq<Row>) {
    exists i, k :: 0 <= i < k < |xs| && Passes(j, xs[i], xs[k], ys)
  }

  lemma {:induction false} OvertakenTail(j: Merger, xs: seq<Row>, ys: seq<Row>)
    requires xs != []
    ensures Overtaken(j, xs[1..], ys) ==> Overtaken(j, xs, ys)
    ensures Overtaken(j, xs, ys) ==>
      Overtaken(j, xs[1..], ys) || exists k :: 0 < k < |xs| && Passes(j, xs[0], xs[k], ys)
  {
    if Overtaken(j, xs[1..], ys) {
      var i, k :| 0 <= i < k < |xs[1..]| && Passes(j, xs[1..][i], xs[1..][k], ys);
      assert Passes(j, xs[i + 1], xs[k + 1], ys);
    }
    if Overtaken(j, xs, ys) {
      var i, k :| 0 <= i < k < |xs| && Passes(j, xs[i], xs[k], ys);
      if i > 0 {
        assert Passes(j, xs[1..][i - 1], xs[1..][k - 1], ys);
      }
    }
  }

  /** A right row without a match decides nothing. */
  lemma {:induction false} OvertakenSkip(j: Merger, xs: seq<Row>, ys: seq<Row>)
    requires ys != []
    ensures Overtaken(j, xs, ys[1..]) ==> Overtaken(j, xs, ys)
    ensures Overtaken(j, xs, ys) && (forall x :: x in xs ==> j.emit(x, ys[0]) == []) ==> Overtaken(j, xs, ys[1..])
  {
    if Overtaken(j, xs, ys[1..]) {
      var i, k :| 0 <= i < k < |xs| && Passes(j, xs[i], xs[k], ys[1..]);
      assert Passes(j, xs[i], xs[k], ys);
    }
    if Overtaken(j, xs, ys) && forall x :: x in xs ==> j.emit(x, ys[0]) == [] {
      var i, k :| 0 <= i < k < |xs| && Passes(j, xs[i], xs[k], ys);
      var y :| y in ys && j.emit(xs[k], y) != [];
      assert xs[k] in xs && y in ys[1..];
      assert Passes(j, xs[i], xs[k], ys[1..]);
    }
  }

  /** A left row whose key is at most the right head's overtakes nothing. */
  lemma {:induction false} HeadPasses(j: Merger, xs: seq<Row>, ys: seq<Row>, k: nat)
    requires j.Coherent() && SortedBy(j.rightKey, ys) && ys != [] && 0 < k < |xs|
    requires !j.Compare(xs[0], ys[0]).Greater?
    ensures !Passes(j, xs[0], xs[k], ys)
  {
    if Passes(j, xs[0], xs[k], ys) {
      if j.Compare(xs[0], ys[0]).Less? {
        LessSkips(j, xs[k], xs, ys);
      } else {
        var y :| y in ys && j.emit(xs[k], y) != [];
        MatchMeans(j, xs[k], y);
        SortedTail(j.rightKey, ys);
        CompareMeans(j.nullsMatch, j.leftKey(xs[0]), j.rightKey(ys[0]));
        LeqAntisymmetric(j.leftKey(xs[0]), j.leftKey(xs[k]));
      }
      assert false;
    }
  }

  /** Where the right head is dropped, whatever matched it has been overtaken. */
  lemma {:induction false} GreaterDrops(j: Merger, xs: seq<Row>, ys: seq<Row>, x: Row)
    requires j.Coherent() && xs != [] && ys != [] && j.Compare(xs[0], ys[0]).Greater? && !Overtaken(j, xs, ys)
      && x in xs
    ensures j.emit(x, ys[0]) == []
  {
    if j.emit(x, ys[0]) != [] {
      MatchMeans(j, x, ys[0]);
      CompareMeans(j.nullsMatch, j.leftKey(xs[0]), j.rightKey(ys[0]));
      var k :| 0 <= k < |xs| && xs[k] == x;
      assert Passes(j, xs[0], xs[k], ys);
      assert false;
    }
  }

  /** With the right side sorted and no left row overtaken, the merge is the join, in order. */
  lemma {:induction false} MergeKeeps(j: Merger, xs: seq<Row>, ys: seq<Row>)
    requires j.Coherent() && SortedBy(j.rightKey, ys) && !Overtaken(j, xs, ys)
    ensures Merge(j, xs, ys) == Pair(j.emit, xs, ys)
    decreases |xs| + |ys|
  {
    if xs == [] {
    } else if ys == [] {
      PairEmptyRight(j.emit, xs);
    } else {
      SortedTail(j.rightKey, ys);
      OvertakenTail(j, xs, ys);
      OvertakenSkip(j, xs, ys);
      match j.Compare(xs[0], ys[0])
      case Less =>
        LeqSame(j.leftKey(xs[0]));
        LessSkips(j, xs[0], xs, ys);
        NoMatchNoRows(j, xs[0], ys);
        MergeKeeps(j, xs[1..], ys);
      case Greater =>
        forall x | x in xs ensures j.emit(x, ys[0]) == [] {
          GreaterDrops(j, xs, ys, x);
        }
        PairSkip(j.emit, xs, ys);
        MergeKeeps(j, xs, ys[1..]);
      case Equal =>
        HeldSuffices(j, xs[0], ys);
        MergeKeeps(j, xs[1..], ys);
    }
  }

  /** A merge never invents rows. */
  lemma {:induction false} MergeWithin(j: Merger, xs: seq<Row>, ys: seq<Row>)
    ensures |Merge(j, xs, ys)| <= |Pair(j.emit, xs, ys)|
    decreases |xs| + |ys|
  {
    if xs != [] && ys != [] {
      match j.Compare(xs[0], ys[0])
      case Less => MergeWithin(j, xs[1..], ys);
      case Greater =>
        MergeWithin(j, xs, ys[1..]);
        PairShrinks(j.emit, xs, ys);
      case Equal =>
        MergeWithin(j, xs[1..], ys);
        HeldWithin(j, xs[0], ys, j.rightKey(ys[0]));
    }
  }

  /** An overtaken row loses its match. */
  lemma {:induction false} MergeLoses(j: Merger, xs: seq<Row>, ys: seq<Row>)
    requires j.Coherent() && SortedBy(j.rightKey, ys) && Overtaken(j, xs, ys)
    ensures |Merge(j, xs, ys)| < |Pair(j.emit, xs, ys)|
    decreases |xs| + |ys|
  {
    if j.Compare(xs[0], ys[0]).Greater? {
      SortedTail(j.rightKey, ys);
      OvertakenSkip(j, xs, ys);
      PairShrinks(j.emit, xs, ys);
      MergeWithin(j, xs, ys[1..]);
      if forall x :: x in xs ==> j.emit(x, ys[0]) == [] {
        MergeLoses(j, xs, ys[1..]);
      }
    } else {
      OvertakenLater(j, xs, ys);
      MergeLoses(j, xs[1..], ys);
      HeldWithin(j, xs[0], ys, j.rightKey(ys[0]));
    }
  }

  lemma {:induction false} OvertakenLater(j: Merger, xs: seq<Row>, ys: seq<Row>)
    requires j.Coherent() && SortedBy(j.rightKey, ys) && xs != [] && ys != [] && Overtaken(j, xs, ys)
    requires !j.Compare(xs[0], ys[0]).Greater?
    ensures Overtaken(j, xs[1..], ys)
  {
    OvertakenTail(j, xs, ys);
    forall k | 0 < k < |xs| ensures !Passes(j, xs[0], xs[k], ys) {
      HeadPasses(j, xs, ys, k);
    }
  }

  /** Against a sorted right side a merge gives the join if and only if no left row is overtaken. */
  lemma {:induction false} MergeExactIff(j: Merger, xs: seq<Row>, ys: seq<Row>)
    requires j.Coherent() && SortedBy(j.rightKey, ys)
    ensures Perm(Merge(j, xs, ys), Pair(j.emit, xs, ys)) <==> !Overtaken(j, xs, ys)
  {
    if Overtaken(j, xs, ys) {
      MergeLoses(j, xs, ys);
      assert |multiset(Merge(j, xs, ys))| != |multiset(Pair(j.emit, xs, ys))|;
    } else {
      MergeKeeps(j, xs, ys);
    }
  }

  /** Both sides sorted: the case the planner provides for. */
  lemma {:induction false} MergeIsJoin(j: Merger, xs: seq<Row>, ys: seq<Row>)
    requires j.Coherent() && SortedBy(j.leftKey, xs) && SortedBy(j.rightKey, ys)
    ensures Merge(j, xs, ys) == Pair(j.emit, xs, ys)
  {
    if i, k :| 0 <= i < k < |xs| && Passes(j, xs[i], xs[k], ys) {
      LeqAntisymmetric(j.leftKey(xs[i]), j.leftKey(xs[k]));
      assert false;
    }
    MergeKeeps(j, xs, ys);
  }

  // ----------------------------------------------------------------- any order

  /** Two rows of a bag, the smaller of which has a match. */
  ghost predicate CanOvertake(j: Merger, bag: seq<Row>, ys: seq<Row>) {
    exists a, b :: a in bag && b in bag && Passes(j, b, a, ys)
  }

  /**
   A left side whose order is left to chance: every arrangement of it merges to
   the join if and only if no row with a match has a smaller key than another row.
   */
  lemma {:induction false} AnyOrderIff(j: Merger, bag: seq<Row>, ys: seq<Row>)
    requires j.Coherent() && SortedBy(j.rightKey, ys)
    ensures (forall xs :: Perm(xs, bag) ==> Perm(Merge(j, xs, ys), Pair(j.emit, bag, ys))) <==> !CanOvertake(j, bag, ys)
  {
    if CanOvertake(j, bag, ys) {
      var xs := OvertakingOrder(j, bag, ys);
      PairPermLeft(j.emit, xs, bag, ys);
      MergeExactIff(j, xs, ys);
    } else {
      forall xs | Perm(xs, bag) ensures Perm(Merge(j, xs, ys), Pair(j.emit, bag, ys)) {
        InAnyOrder(j, xs, bag, ys);
        PairPermLeft(j.emit, xs, bag, ys);
        MergeExactIff(j, xs, ys);
      }
    }
  }

  lemma {:induction false} InAnyOrder(j: Merger, xs: seq<Row>, bag: seq<Row>, ys: seq<Row>)
    requires Perm(xs, bag) && !CanOvertake(j, bag, ys)
    ensures !Overtaken(j, xs, ys)
  {
    forall i, k | 0 <= i < k < |xs| ensures !Passes(j, xs[i], xs[k], ys) {
      assert xs[i] in multiset(xs) && xs[k] in multiset(xs);
      assert xs[i] in bag && xs[k] in bag;
    }
  }

  lemma {:induction false} MovedFirst(bag: seq<Row>, i: nat)
    requires i < |bag|
    ensures Perm([bag[i]] + (bag[..i] + bag[i + 1..]), bag)
  {
    assert bag == bag[..i] + ([bag[i]] + bag[i + 1..]);
  }

  /** The arrangement that puts the greater row first. */
  lemma {:induction false} OvertakingOrder(j: Merger, bag: seq<Row>, ys: seq<Row>) returns (xs: seq<Row>)
    requires CanOvertake(j, bag, ys)
    ensures Perm(xs, bag) && Overtaken(j, xs, ys)
  {
    var a, b :| a in bag && b in bag && Passes(j, b, a, ys);
    var i :| 0 <= i < |bag| && bag[i] == b;
    xs := [b] + (bag[..i] + bag[i + 1..]);
    MovedFirst(bag, i);
    assert a in multiset(bag);
    var k :| 0 <= k < |xs| && xs[k] == a;
    assert Passes(j, xs[0], xs[k], ys);
  }

  // -------------------------------------------------------------------- output

  lemma {:induction false} HeldMember(key: Row -> Row, k: Row, ys: seq<Row>, y: Row)
    requires y in Held(key, k, ys)
    ensures y in ys
  {
    HeldSplits(key, k, ys);
  }

  lemma {:induction false} MergeMember(j: Merger, xs: seq<Row>, ys: seq<Row>, r: Row)
    requires r in Merge(j, xs, ys)
    ensures exists x, y :: x in xs && y in ys && r in j.emit(x, y)
    decreases |xs| + |ys|
  {
    match j.Compare(xs[0], ys[0])
    case Less => MergeMember(j, xs[1..], ys, r);
    case Greater => MergeMember(j, xs, ys[1..], r);
    case Equal =>
      var held := Held(j.rightKey, j.rightKey(ys[0]), ys);
      if r in PairRow(j.emit, xs[0], held) {
        PairRowMember(j.emit, xs[0], held, r);
        var y :| y in held && r in j.emit(xs[0], y);
        HeldMember(j.rightKey, j.rightKey(ys[0]), ys, y);
      } else {
        MergeMember(j, xs[1..], ys, r);
      }
  }

  /** The output of a merge follows the order of its left side. */
  lemma {:induction false} MergeSorted(j: Merger, xs: seq<Row>, ys: seq<Row>, key: Row -> Row, key': Row -> Row)
    requires SortedBy(key, xs) && forall x, y, r :: x in xs && y in ys && r in j.emit(x, y) ==> key'(r) == key(x)
    ensures SortedBy(key', Merge(j, xs, ys))
    decreases |xs| + |ys|
  {
    if xs != [] && ys != [] {
      SortedTail(key, xs);
      match j.Compare(xs[0], ys[0])
      case Less => MergeSorted(j, xs[1..], ys, key, key');
      case Greater => MergeSorted(j, xs, ys[1..], key, key');
      case Equal =>
        MergeSorted(j, xs[1..], ys, key, key');
        MergeSortedHead(j, xs, ys, key, key');
    }
  }

  lemma {:induction false} MergeSortedHead(j: Merger, xs: seq<Row>, ys: seq<Row>, key: Row -> Row, key': Row -> Row)
    requires xs != [] && ys != [] && SortedBy(key, xs) && SortedBy(key', Merge(j, xs[1..], ys))
    requires forall x, y, r :: x in xs && y in ys && r in j.emit(x, y) ==> key'(r) == key(x)
    ensures SortedBy(key', PairRow(j.emit, xs[0], Held(j.rightKey, j.rightKey(ys[0]), ys)) + Merge(j, xs[1..], ys))
  {
    var k := j.rightKey(ys[0]);
    var block := PairRow(j.emit, xs[0], Held(j.rightKey, k, ys));
    SortedTail(key, xs);
    forall r | r in block ensures key'(r) == key(xs[0]) {
      PairRowMember(j.emit, xs[0], Held(j.rightKey, k, ys), r);
      var y :| y in Held(j.rightKey, k, ys) && r in j.emit(xs[0], y);
      HeldMember(j.rightKey, k, ys, y);
    }
    SortedSame(key', key(xs[0]), block);
    forall r | r in Merge(j, xs[1..], ys) ensures Leq(key(xs[0]), key'(r)) {
      MergeMember(j, xs[1..], ys, r);
    }
    SortedAppend(key', block, Merge(j, xs[1..], ys));
  }
}
