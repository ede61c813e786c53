/**
 What the four aggregates of a group are, said without folding: how many inputs
 there are, their exact sum, the least and the greatest.
 */
module AggregateMeaning {
  import opened Core
  import opened Groups
  import opened Plans

  /** Is `r` a row of group `k` with a non-`NULL` input? */
  predicate Hit(key: Row -> Row, input: Row -> Value, k: Row, r: Row) {
    key(r) == k && !input(r).Null?
  }

  /** The number of non-`NULL` inputs of group `k`. */
  function Hits(key: Row -> Row, input: Row -> Value, k: Row, rows: seq<Row>): nat {
    if rows == [] then 0 else (if Hit(key, input, k, rows[0]) then 1 else 0) + Hits(key, input, k, rows[1..])
  }

  lemma {:induction false} HitsBound(key: Row -> Row, input: Row -> Value, k: Row, rows: seq<Row>)
    ensures Hits(key, input, k, rows) <= |rows|
    ensures Hits(key, input, k, rows) > 0 <==> exists r :: r in rows && Hit(key, input, k, r)
  {
    if rows != [] {
      HitsBound(key, input, k, rows[1..]);
      assert forall r :: r in rows <==> r == rows[0] || r in rows[1..];
    }
  }

  /** Every input of the group is an integer or `NULL`. */
  ghost predicate Integral(key: Row -> Row, input: Row -> Value, k: Row, rows: seq<Row>) {
    forall r :: r in rows && Hit(key, input, k, r) ==> input(r).I64?
  }

  /** `COUNT` is the number of non-`NULL` inputs. */
  lemma {:induction false} CountIsHits(key: Row -> Row, input: Row -> Value, k: Row, rows: seq<Row>)
    requires |rows| <= I64_MAX
    ensures Hits(key, input, k, rows) <= I64_MAX
    ensures Fold(key, Agg(Count, false, input), k, rows) == I64(Hits(key, input, k, rows))
  {
    HitsBound(key, input, k, rows);
    if rows != [] {
      CountIsHits(key, input, k, rows[1..]);
    }
  }

  /** `SUM` is the exact sum up to wrap-arounds; `q` counts them. It is `NULL` only without inputs. */
  lemma {:induction false} SumWraps(key: Row -> Row, input: Row -> Value, k: Row, rows: seq<Row>) returns (q: int)
    requires Integral(key, input, k, rows)
    ensures var v := Fold(key, Agg(Sum, false, input), k, rows);
            && (v.I64? <==> Hits(key, input, k, rows) > 0) && (v.I64? || v.Null?)
            && (if v.I64? then v.i + q * TWO_64 == ExactSum(key, input, k, rows) else ExactSum(key, input, k, rows) == 0)
  {
    if rows == [] {
      q := 0;
    } else {
      var (r, rest) := (rows[0], rows[1..]);
      q := SumWraps(key, input, k, rest);
      var v := Fold(key, Agg(Sum, false, input), k, rest);
      if Hit(key, input, k, r) {
        assert r in rows;
        var x := input(r).i;
        if v.I64? {
          q := q + if x + v.i > I64_MAX then 1 else if x + v.i < I64_MIN then -1 else 0;
        } else {
          q := 0;
        }
      }
    }
  }

  /** A sum that fits is exact; one that does not is not. */
  lemma {:induction false} SumIsExact(key: Row -> Row, input: Row -> Value, k: Row, rows: seq<Row>)
    requires Integral(key, input, k, rows) && Hits(key, input, k, rows) > 0
    ensures var v := Fold(key, Agg(Sum, false, input), k, rows);
            v.I64? && (v.i == ExactSum(key, input, k, rows) <==> FitsI64(ExactSum(key, input, k, rows)))
  {
    var q := SumWraps(key, input, k, rows);
  }

  ghost predicate Least(v: i64, key: Row -> Row, input: Row -> Value, k: Row, rows: seq<Row>) {
    && (exists r :: r in rows && key(r) == k && input(r) == I64(v))
    && (forall r :: r in rows && key(r) == k && input(r).I64? ==> v <= input(r).i)
  }

  ghost predicate Greatest(v: i64, key: Row -> Row, input: Row -> Value, k: Row, rows: seq<Row>) {
    && (exists r :: r in rows && key(r) == k && input(r) == I64(v))
    && (forall r :: r in rows && key(r) == k && input(r).I64? ==> v >= input(r).i)
  }

  /** `MIN` is the least input, or `NULL` without one. */
  lemma {:induction false} MinIsLeast(key: Row -> Row, input: Row -> Value, k: Row, rows: seq<Row>)
    requires Integral(key, input, k, rows)
    ensures var v := Fold(key, Agg(Min, false, input), k, rows);
            (v.Null? && Hits(key, input, k, rows) == 0) || (v.I64? && Least(v.i, key, input, k, rows))
  {
    if rows != [] {
      MinIsLeast(key, input, k, rows[1..]);
      assert rows[0] in rows;
      assert forall r :: r in rows <==> r == rows[0] || r in rows[1..];
      HitsBound(key, input, k, rows[1..]);
    }
  }

  /** `MAX` is the greatest input, or `NULL` without one. */
  lemma {:induction false} MaxIsGreatest(key: Row -> Row, input: Row -> Value, k: Row, rows: seq<Row>)
    requires Integral(key, input, k, rows)
    ensures var v := Fold(key, Agg(Max, false, input), k, rows);
            (v.Null? && Hits(key, input, k, rows) == 0) || (v.I64? && Greatest(v.i, key, input, k, rows))
  {
    if rows != [] {
      MaxIsGreatest(key, input, k, rows[1..]);
      assert rows[0] in rows;
      assert forall r :: r in rows <==> r == rows[0] || r in rows[1..];
      HitsBound(key, input, k, rows[1..]);
    }
  }

  /** `n` 64-bit inputs sum to at most `n` times 2^63 in magnitude. */
  lemma {:induction false} SumBound(key: Row -> Row, input: Row -> Value, k: Row, rows: seq<Row>)
    ensures -TWO_63 * Hits(key, input, k, rows) <= ExactSum(key, input, k, rows) <= TWO_63 * Hits(key, input, k, rows)
  {
    if rows != [] {
      SumBound(key, input, k, rows[1..]);
    }
  }

  lemma {:induction false} ExactSumAppend(key: Row -> Row, input: Row -> Value, k: Row, s: seq<Row>, t: seq<Row>)
    ensures ExactSum(key, input, k, s + t) == ExactSum(key, input, k, s) + ExactSum(key, input, k, t)
  {
    if s == [] {
      assert s + t == t;
    } else {
      ExactSumAppend(key, input, k, s[1..], t);
      assert (s + t)[1..] == s[1..] + t;
    }
  }

  lemma {:induction false} HitsAppend(key: Row -> Row, input: Row -> Value, k: Row, s: seq<Row>, t: seq<Row>)
    ensures Hits(key, input, k, s + t) == Hits(key, input, k, s) + Hits(key, input, k, t)
  {
    if s == [] {
      assert s + t == t;
    } else {
      HitsAppend(key, input, k, s[1..], t);
      assert (s + t)[1..] == s[1..] + t;
    }
  }
}
