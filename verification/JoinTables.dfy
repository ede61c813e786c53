/**
 The hash table that a join probes. Keys are counted, each gets a stretch of its
 counted length in whatever order the map is walked, and the row numbers are put
 there; a lookup then finds the rows of a key in the order they were built from.
 */
module JoinTables {
  import opened Core

  /** All row numbers in one sequence, and for each key the stretch that is its own. */
  datatype JoinTable = JoinTable(ranges: map<i64, (nat, nat)>, rows: seq<nat>) {
    /** Do all ranges lie inside the row array? */
    ghost predicate InBounds() {
      forall k :: k in ranges ==> ranges[k].0 + ranges[k].1 <= |rows|
    }

    /** The stretch of a key, empty for an unknown one. */
    function Matches(key: i64): seq<nat>
      requires InBounds()
    {
      if key in ranges then rows[ranges[key].0..ranges[key].0 + ranges[key].1] else []
    }
  }

  // ------------------------------------------------------------ specification

  /** The rows holding key `k`, ascending. */
  function KeyRows(keys: seq<Value>, k: i64): seq<nat> {
    if keys == [] then []
    else
      var n := |keys| - 1;
      KeyRows(keys[..n], k) + if keys[n] == I64(k) then [n] else []
  }

  /** `KeyRows` is what it says: exactly those rows, in increasing order. */
  lemma {:induction false} KeyRowsMeaning(keys: seq<Value>, k: i64)
    ensures forall i: nat :: i in KeyRows(keys, k) <==> i < |keys| && keys[i] == I64(k)
    ensures forall i, j :: 0 <= i < j < |KeyRows(keys, k)| ==> KeyRows(keys, k)[i] < KeyRows(keys, k)[j]
  {
    if keys != [] {
      var n := |keys| - 1;
      var front := KeyRows(keys[..n], k);
      KeyRowsMeaning(keys[..n], k);
      assert forall i: nat :: i < n ==> keys[..n][i] == keys[i];
      assert forall i :: 0 <= i < |front| ==> front[i] in front;
    }
  }

  /** The number of non-`NULL` keys. */
  function NonNull(keys: seq<Value>): nat {
    if keys == [] then 0 else NonNull(keys[..|keys| - 1]) + if keys[|keys| - 1].I64? then 1 else 0
  }

  ghost predicate Disjoint(ranges: map<i64, (nat, nat)>) {
    forall k, l :: k in ranges && l in ranges && k != l ==>
      ranges[k].0 + ranges[k].1 <= ranges[l].0 || ranges[l].0 + ranges[l].1 <= ranges[k].0
  }

  /** Some key's range holds slot `i`. */
  ghost predicate Occupied(ranges: map<i64, (nat, nat)>, i: nat) {
    exists k :: k in ranges && ranges[k].0 <= i < ranges[k].0 + ranges[k].1
  }

  /** The ranges leave no gap: every slot below `n` belongs to a key. */
  ghost predicate Covers(ranges: map<i64, (nat, nat)>, n: nat) {
    forall i: nat :: i < n ==> Occupied(ranges, i)
  }

  /** What the probe relies on. */
  ghost predicate TableFor(t: JoinTable, keys: seq<Value>) {
    && t.InBounds()
    && |t.rows| == NonNull(keys) <= U32_MAX
    && Disjoint(t.ranges) && Covers(t.ranges, |t.rows|)
    && (forall k :: t.Matches(k) == KeyRows(keys, k))
  }

  /** Does some key make the build fail: too many rows, or a row number past 32 bits? */
  ghost predicate TooBig(keys: seq<Value>) {
    NonNull(keys) > U32_MAX || exists j :: U32_MAX < j < |keys| && keys[j].I64?
  }

  // ----------------------------------------------------------------- counting

  lemma {:induction false} KeyRowsSnoc(keys: seq<Value>, n: nat, k: i64)
    requires n < |keys|
    ensures KeyRows(keys[..n + 1], k) == KeyRows(keys[..n], k) + if keys[n] == I64(k) then [n] else []
  {
    assert keys[..n + 1][..n] == keys[..n];
  }

  lemma {:induction false} KeyRowsPrefix(keys: seq<Value>, n: nat, k: i64)
    requires n <= |keys|
    ensures KeyRows(keys[..n], k) <= KeyRows(keys, k)
    decreases |keys| - n
  {
    if n == |keys| {
      assert keys[..n] == keys;
    } else {
      KeyRowsSnoc(keys, n, k);
      KeyRowsPrefix(keys, n + 1, k);
    }
  }

  lemma {:induction false} NonNullSnoc(keys: seq<Value>, n: nat)
    requires n < |keys|
    ensures NonNull(keys[..n + 1]) == NonNull(keys[..n]) + if keys[n].I64? then 1 else 0
  {
    assert keys[..n + 1][..n] == keys[..n];
  }

  ghost function SumOver(counts: map<i64, nat>, s: set<i64>): nat
    requires s <= counts.Keys
    decreases |s|
  {
    if s == {} then 0
    else
      var k :| k in s;
      counts[k] + SumOver(counts, s - {k})
  }

  lemma {:induction false} SumRemove(counts: map<i64, nat>, s: set<i64>, k: i64)
    requires s <= counts.Keys && k in s
    ensures SumOver(counts, s) == counts[k] + SumOver(counts, s - {k})
    decreases |s|
  {
    var l :| l in s && SumOver(counts, s) == counts[l] + SumOver(counts, s - {l});
    if l != k {
      SumRemove(counts, s - {l}, k);
      SumRemove(counts, s - {k}, l);
      assert s - {l} - {k} == s - {k} - {l};
    }
  }

  lemma {:induction false} SumSame(a: map<i64, nat>, b: map<i64, nat>, s: set<i64>)
    requires s <= a.Keys && s <= b.Keys && forall k :: k in s ==> a[k] == b[k]
    ensures SumOver(a, s) == SumOver(b, s)
    decreases |s|
  {
    if s != {} {
      var k :| k in s;
      SumRemove(a, s, k);
      SumRemove(b, s, k);
      SumSame(a, b, s - {k});
    }
  }

  lemma {:induction false} SumBump(counts: map<i64, nat>, k: i64)
    ensures var bumped := counts[k := (if k in counts then counts[k] else 0) + 1];
            SumOver(bumped, bumped.Keys) == SumOver(counts, counts.Keys) + 1
  {
    var bumped := counts[k := (if k in counts then counts[k] else 0) + 1];
    SumRemove(bumped, bumped.Keys, k);
    if k in counts {
      SumRemove(counts, counts.Keys, k);
    } else {
      assert counts.Keys - {k} == counts.Keys;
    }
    assert bumped.Keys - {k} == counts.Keys - {k};
    SumSame(bumped, counts, counts.Keys - {k});
  }

  ghost predicate CountsOf(counts: map<i64, nat>, keys: seq<Value>) {
    && (forall k :: k in counts <==> KeyRows(keys, k) != [])
    && (forall k :: k in counts ==> counts[k] == |KeyRows(keys, k)|)
    && SumOver(counts, counts.Keys) == NonNull(keys)
  }

  /** Counts how often each key occurs. No counter wraps as long as no key exceeds 32 bits. */
  method CountKeys(keys: seq<Value>) returns (counts: map<i64, nat>)
    requires forall k :: |KeyRows(keys, k)| <= U32_MAX
    ensures CountsOf(counts, keys)
    ensures forall k :: k in counts ==> counts[k] <= U32_MAX
  {
    counts := map[];
    for j := 0 to |keys|
      invariant CountsOf(counts, keys[..j])
    {
      ghost var before := counts;
      if keys[j].I64? {
        var k := keys[j].i;
        counts := counts[k := (if k in counts then counts[k] else 0) + 1];
        SumBump(before, k);
      }
      forall l ensures KeyRows(keys[..j + 1], l) == KeyRows(keys[..j], l) + if keys[j] == I64(l) then [j] else [] {
        KeyRowsSnoc(keys, j, l);
      }
      NonNullSnoc(keys, j);
    }
    assert keys[..|keys|] == keys;
  }

  /** Ranges of the counted lengths, end to end below `next`, for the keys outside `todo`. */
  ghost predicate LaidOut(ranges: map<i64, (nat, nat)>, counts: map<i64, nat>, todo: set<i64>, next: nat) {
    && ranges.Keys == counts.Keys - todo && Disjoint(ranges) && Covers(ranges, next)
    && forall k :: k in ranges ==> ranges[k].1 == counts[k] && ranges[k].0 + ranges[k].1 <= next
  }

  lemma {:induction false} LayOne(ranges: map<i64, (nat, nat)>, counts: map<i64, nat>, todo: set<i64>, next: nat,
                                  k: i64)
    requires LaidOut(ranges, counts, todo, next) && k in todo && k in counts
    ensures LaidOut(ranges[k := (next, counts[k])], counts, todo - {k}, next + counts[k])
  {
    CoversMore(ranges, k, next, counts[k]);
  }

  /** Gives each key a stretch of its counted length, taking the keys in any order. */
  method LayOut(counts: map<i64, nat>) returns (r: Result<(map<i64, (nat, nat)>, nat)>)
    ensures r.Err? <==> SumOver(counts, counts.Keys) > U32_MAX
    ensures r.Ok? ==> r.value.1 == SumOver(counts, counts.Keys) && LaidOut(r.value.0, counts, {}, r.value.1)
  {
    var ranges: map<i64, (nat, nat)> := map[];
    var next: nat := 0;
    var todo := counts.Keys;
    while todo != {}
      invariant todo <= counts.Keys && LaidOut(ranges, counts, todo, next)
      invariant next + SumOver(counts, todo) == SumOver(counts, counts.Keys)
      invariant next <= U32_MAX
      decreases |todo|
    {
      var k :| k in todo;
      SumRemove(counts, todo, k);
      LayOne(ranges, counts, todo, next, k);
      ranges := ranges[k := (next, counts[k])];
      if next + counts[k] > U32_MAX {
        return Err(ExecutionError);
      }
      next := next + counts[k];
      todo := todo - {k};
    }
    return Ok((ranges, next));
  }

  lemma {:induction false} CoversMore(ranges: map<i64, (nat, nat)>, k: i64, next: nat, count: nat)
    requires Covers(ranges, next) && k !in ranges
    ensures Covers(ranges[k := (next, count)], next + count)
  {
    var more := ranges[k := (next, count)];
    forall i: nat | i < next + count ensures Occupied(more, i) {
      if i < next {
        assert Occupied(ranges, i);
        var l :| l in ranges && ranges[l].0 <= i < ranges[l].0 + ranges[l].1;
        assert l in more && more[l] == ranges[l];
      } else {
        assert k in more;
      }
    }
  }

  /** `rows` holds exactly `expected` from `start` on. */
  ghost predicate HoldsAt(rows: seq<nat>, start: nat, expected: seq<nat>) {
    start + |expected| <= |rows| && rows[start..start + |expected|] == expected
  }

  lemma {:induction false} HoldsFrame(rows: seq<nat>, start: nat, expected: seq<nat>, i: nat, v: nat)
    requires HoldsAt(rows, start, expected) && i < |rows| && (i < start || start + |expected| <= i)
    ensures HoldsAt(rows[i := v], start, expected)
  {
  }

  lemma {:induction false} HoldsExtend(rows: seq<nat>, start: nat, expected: seq<nat>, v: nat)
    requires HoldsAt(rows, start, expected) && start + |expected| < |rows|
    ensures HoldsAt(rows[start + |expected| := v], start, expected + [v])
  {
  }

  /** The key's rows among `keys` sit at the front of its range; its cursor is just past them. */
  ghost predicate KeyScattered(range: (nat, nat), cursor: nat, rows: seq<nat>, keys: seq<Value>, k: i64) {
    cursor == range.0 + |KeyRows(keys, k)| && HoldsAt(rows, range.0, KeyRows(keys, k))
  }

  ghost predicate Scattered(ranges: map<i64, (nat, nat)>, cursor: map<i64, nat>, rows: seq<nat>, keys: seq<Value>) {
    && cursor.Keys == ranges.Keys
    && forall k {:trigger KeyScattered(ranges[k], cursor[k], rows, keys, k)} ::
         k in ranges ==> KeyScattered(ranges[k], cursor[k], rows, keys, k)
  }

  lemma {:induction false} ScatterOther(ranges: map<i64, (nat, nat)>, keys: seq<Value>, rows: seq<nat>, j: nat, k: i64,
                                        l: i64, slot: nat)
    requires j < |keys| && keys[j] == I64(k) && k in ranges && l in ranges && l != k && Disjoint(ranges)
    requires ranges[k].0 <= slot < ranges[k].0 + ranges[k].1 && slot < |rows|
    requires |KeyRows(keys[..j], l)| <= ranges[l].1 && HoldsAt(rows, ranges[l].0, KeyRows(keys[..j], l))
    ensures KeyRows(keys[..j + 1], l) == KeyRows(keys[..j], l)
    ensures HoldsAt(rows[slot := j], ranges[l].0, KeyRows(keys[..j + 1], l))
  {
    KeyRowsSnoc(keys, j, l);
    HoldsFrame(rows, ranges[l].0, KeyRows(keys[..j], l), slot, j);
  }

  ghost predicate Roomy(ranges: map<i64, (nat, nat)>, keys: seq<Value>, n: nat) {
    forall k {:trigger KeyRows(keys, k)} ::
      k in ranges ==> |KeyRows(keys, k)| == ranges[k].1 && ranges[k].0 + ranges[k].1 <= n
  }

  lemma {:induction false} ScatterOne(ranges: map<i64, (nat, nat)>, cursor: map<i64, nat>, rows: seq<nat>,
                                      keys: seq<Value>, j: nat)
    requires j < |keys| && keys[j].I64? && keys[j].i in ranges && Disjoint(ranges)
    requires Scattered(ranges, cursor, rows, keys[..j]) && Roomy(ranges, keys, |rows|)
    ensures var k := keys[j].i;
            cursor[k] < |rows| && Scattered(ranges, cursor[k := cursor[k] + 1], rows[cursor[k] := j], keys[..j + 1])
  {
    var k := keys[j].i;
    KeyRowsSnoc(keys, j, k);
    KeyRowsPrefix(keys, j + 1, k);
    var slot := cursor[k];
    assert KeyScattered(ranges[k], cursor[k], rows, keys[..j], k);
    HoldsExtend(rows, ranges[k].0, KeyRows(keys[..j], k), j);
    forall l | l in ranges && l != k ensures KeyScattered(ranges[l], cursor[l], rows[slot := j], keys[..j + 1], l) {
      assert KeyScattered(ranges[l], cursor[l], rows, keys[..j], l);
      KeyRowsPrefix(keys, j, l);
      ScatterOther(ranges, keys, rows, j, k, l, slot);
    }
  }

  lemma {:induction false} ScatterSkip(ranges: map<i64, (nat, nat)>, cursor: map<i64, nat>, rows: seq<nat>,
                                       keys: seq<Value>, j: nat)
    requires j < |keys| && !keys[j].I64?
    requires Scattered(ranges, cursor, rows, keys[..j])
    ensures Scattered(ranges, cursor, rows, keys[..j + 1])
  {
    forall l | l in ranges ensures KeyScattered(ranges[l], cursor[l], rows, keys[..j + 1], l) {
      assert KeyScattered(ranges[l], cursor[l], rows, keys[..j], l);
      KeyRowsSnoc(keys, j, l);
    }
  }

  lemma {:induction false} ScatterStart(ranges: map<i64, (nat, nat)>, cursor: map<i64, nat>, rows: seq<nat>,
                                        keys: seq<Value>)
    requires Roomy(ranges, keys, |rows|) && cursor.Keys == ranges.Keys && forall k :: k in ranges ==>
      cursor[k] == ranges[k].0
    ensures Scattered(ranges, cursor, rows, keys[..0])
  {
    assert keys[..0] == [];
    forall k | k in ranges ensures KeyScattered(ranges[k], cursor[k], rows, keys[..0], k) {
      assert |KeyRows(keys, k)| == ranges[k].1;
    }
  }

  /** Exactly the keys that occur have a range. */
  ghost predicate RangePerKey(ranges: map<i64, (nat, nat)>, keys: seq<Value>) {
    forall k {:trigger KeyRows(keys, k)} :: k in ranges <==> KeyRows(keys, k) != []
  }

  lemma {:induction false} HasRange(ranges: map<i64, (nat, nat)>, keys: seq<Value>, j: nat, k: i64)
    requires RangePerKey(ranges, keys) && j < |keys| && keys[j] == I64(k)
    ensures k in ranges
  {
    KeyRowsMeaning(keys, k);
    assert j in KeyRows(keys, k);
  }

  /** Every range holds its key's rows. */
  ghost predicate AllHeld(rows: seq<nat>, ranges: map<i64, (nat, nat)>, keys: seq<Value>) {
    forall k :: k in ranges ==> HoldsAt(rows, ranges[k].0, KeyRows(keys, k))
  }

  /** No row past 32 bits has a key, up to `n`. */
  ghost predicate RowsFit(keys: seq<Value>, n: nat) {
    forall i :: U32_MAX < i < n && i < |keys| ==> !keys[i].I64?
  }

  /** Puts one row number into its key's stretch and moves that key's cursor on. */
  method ScatterRow(keys: seq<Value>, ghost ranges: map<i64, (nat, nat)>, cursor: map<i64, nat>, rows: array<nat>, j: nat)
    returns (moved: Result<map<i64, nat>>)
    requires Disjoint(ranges) && Roomy(ranges, keys, rows.Length) && RangePerKey(ranges, keys)
    requires j < |keys| && keys[j].I64? && Scattered(ranges, cursor, rows[..], keys[..j])
    modifies rows
    ensures moved.Ok? <==> j <= U32_MAX
    ensures moved.Ok? ==> Scattered(ranges, moved.value, rows[..], keys[..j + 1])
  {
    var k := keys[j].i;
    HasRange(ranges, keys, j, k);
    moved := Ok(cursor);
    if k in cursor {
      if j > U32_MAX {
        return Err(ExecutionError);
      }
      ghost var before := rows[..];
      ScatterOne(ranges, cursor, before, keys, j);
      rows[cursor[k]] := j;
      assert rows[..] == before[cursor[k] := j];
      moved := Ok(cursor[k := cursor[k] + 1]);
    }
  }

  lemma {:induction false} ScatterEnd(ranges: map<i64, (nat, nat)>, cursor: map<i64, nat>, rows: seq<nat>,
                                      keys: seq<Value>)
    requires Scattered(ranges, cursor, rows, keys[..|keys|])
    ensures AllHeld(rows, ranges, keys)
  {
    assert keys[..|keys|] == keys;
    forall k | k in ranges ensures HoldsAt(rows, ranges[k].0, KeyRows(keys, k)) {
      assert KeyScattered(ranges[k], cursor[k], rows, keys[..|keys|], k);
    }
  }

  /** Walks the rows once more; rows without a key have no stretch. */
  method ScatterRows(keys: seq<Value>, ghost ranges: map<i64, (nat, nat)>, start: map<i64, nat>, rows: array<nat>)
    returns (ok: bool)
    requires Disjoint(ranges) && Roomy(ranges, keys, rows.Length) && RangePerKey(ranges, keys)
    requires Scattered(ranges, start, rows[..], keys[..0])
    modifies rows
    ensures ok <==> RowsFit(keys, |keys|)
    ensures ok ==> AllHeld(rows[..], ranges, keys)
  {
    var cursor := start;
    for j: nat := 0 to |keys|
      invariant Scattered(ranges, cursor, rows[..], keys[..j])
      invariant RowsFit(keys, j)
    {
      if keys[j].I64? {
        var moved := ScatterRow(keys, ranges, cursor, rows, j);
        if moved.Err? {
          return false;
        }
        cursor := moved.value;
      } else {
        ScatterSkip(ranges, cursor, rows[..], keys, j);
      }
    }
    ScatterEnd(ranges, cursor, rows[..], keys);
    return true;
  }

  /** The second pass over the build side. */
  method Scatter(keys: seq<Value>, ranges: map<i64, (nat, nat)>, next: nat) returns (r: Result<seq<nat>>)
    requires Disjoint(ranges) && Roomy(ranges, keys, next) && RangePerKey(ranges, keys)
    ensures r.Err? <==> !RowsFit(keys, |keys|)
    ensures r.Ok? ==> |r.value| == next && AllHeld(r.value, ranges, keys)
  {
    var cursor := map k | k in ranges :: ranges[k].0;
    var rows := new nat[next](i => 0);
    ScatterStart(ranges, cursor, rows[..], keys);
    var ok := ScatterRows(keys, ranges, cursor, rows);
    return if ok then Ok(rows[..]) else Err(ExecutionError);
  }

  /** Builds the table, or fails exactly on inputs too big for 32-bit row numbers. */
  method Build(keys: seq<Value>) returns (r: Result<JoinTable>)
    requires forall k :: |KeyRows(keys, k)| <= U32_MAX
    ensures r.Err? <==> TooBig(keys)
    ensures r.Ok? ==> TableFor(r.value, keys)
  {
    var counts := CountKeys(keys);
    var laid := LayOut(counts);
    if laid.Err? {
      return Err(laid.error);
    }
    var (ranges, next) := laid.value;
    var scattered := Scatter(keys, ranges, next);
    if scattered.Err? {
      return Err(scattered.error);
    }
    var table := JoinTable(ranges, scattered.value);
    TableIsRight(table, keys);
    return Ok(table);
  }

  lemma {:induction false} TableIsRight(t: JoinTable, keys: seq<Value>)
    requires Roomy(t.ranges, keys, |t.rows|) && RangePerKey(t.ranges, keys) && AllHeld(t.rows, t.ranges, keys)
    ensures t.InBounds() && forall k :: t.Matches(k) == KeyRows(keys, k)
  {
    forall k ensures t.Matches(k) == KeyRows(keys, k) {
    }
  }
}
