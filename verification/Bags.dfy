/**
 Sequences read as bags. Every operator of a plan is a `FlatMap` or a pairing of
 two sequences, so these few laws carry all the reordering arguments.
 */
module Bags {

  /** Same elements with the same multiplicities. */
  ghost predicate Perm<A>(s: seq<A>, t: seq<A>) {
    multiset(s) == multiset(t)
  }

  function Flatten<A>(parts: seq<seq<A>>): seq<A> {
    if parts == [] then [] else parts[0] + Flatten(parts[1..])
  }

  function FlatMap<A, B>(f: A -> seq<B>, s: seq<A>): seq<B> {
    if s == [] then [] else f(s[0]) + FlatMap(f, s[1..])
  }

  /** `f` applied to each part on its own. */
  function Each<A, B>(f: seq<A> -> seq<B>, parts: seq<seq<A>>): (r: seq<seq<B>>)
    ensures |r| == |parts|
    ensures forall i :: 0 <= i < |parts| ==> r[i] == f(parts[i])
  {
    seq(|parts|, i requires 0 <= i < |parts| => f(parts[i]))
  }

  /** All `m(x, y)`, `x` outermost. */
  function Pair<A, B, C>(m: (A, B) -> seq<C>, xs: seq<A>, ys: seq<B>): seq<C> {
    if xs == [] then [] else PairRow(m, xs[0], ys) + Pair(m, xs[1..], ys)
  }

  function PairRow<A, B, C>(m: (A, B) -> seq<C>, x: A, ys: seq<B>): seq<C> {
    if ys == [] then [] else m(x, ys[0]) + PairRow(m, x, ys[1..])
  }

  // ------------------------------------------------------------- splitting

  /** A reordering of `s` holds its first element somewhere; the rest reorders the rest. */
  lemma {:induction false} PermSplit<A>(s: seq<A>, t: seq<A>) returns (front: seq<A>, back: seq<A>)
    requires Perm(s, t) && s != []
    ensures t == front + ([s[0]] + back)
    ensures Perm(s[1..], front + back)
  {
    assert s[0] in multiset(t);
    var i :| 0 <= i < |t| && t[i] == s[0];
    front, back := t[..i], t[i + 1..];
    assert t == front + ([s[0]] + back);
    assert multiset(t) == multiset(front) + (multiset{s[0]} + multiset(back));
    assert s == [s[0]] + s[1..];
    assert multiset(s) == multiset{s[0]} + multiset(s[1..]);
    Cancel(s[0], multiset(s[1..]), multiset(front + back));
  }

  lemma {:induction false} Cancel<A>(x: A, m: multiset<A>, n: multiset<A>)
    requires multiset{x} + m == multiset{x} + n
    ensures m == n
  {
    assert m == (multiset{x} + m) - multiset{x};
    assert n == (multiset{x} + n) - multiset{x};
  }

  lemma {:induction false} Assoc<A>(a: seq<A>, b: seq<A>, c: seq<A>)
    ensures a + (b + c) == (a + b) + c
  {
  }

  lemma {:induction false} PermEmpty<A>(t: seq<A>)
    requires Perm([], t)
    ensures t == []
  {
    assert |multiset(t)| == |t|;
  }

  lemma {:induction false} FlattenAppend<A>(s: seq<seq<A>>, t: seq<seq<A>>)
    ensures Flatten(s + t) == Flatten(s) + Flatten(t)
  {
    if s == [] {
      assert s + t == t;
    } else {
      FlattenAppend(s[1..], t);
      assert (s + t)[1..] == s[1..] + t;
      Assoc(s[0], Flatten(s[1..]), Flatten(t));
    }
  }

  lemma {:induction false} FlattenOne<A>(s: seq<A>)
    ensures Flatten([s]) == s
  {
    assert Flatten([s]) == s + Flatten([]);
  }

  lemma {:induction false} FlattenMember<A>(parts: seq<seq<A>>, x: A)
    ensures x in Flatten(parts) <==> exists i :: 0 <= i < |parts| && x in parts[i]
  {
    if parts != [] {
      FlattenMember(parts[1..], x);
      if x in Flatten(parts) && x !in parts[0] {
        var i :| 0 <= i < |parts[1..]| && x in parts[1..][i];
        assert x in parts[i + 1];
      }
      if i :| 0 <= i < |parts| && x in parts[i] {
        if i > 0 {
          assert x in parts[1..][i - 1];
        }
      }
    }
  }

  /** Reordering inside the parts reorders the whole. */
  lemma {:induction false} FlattenPerm<A>(s: seq<seq<A>>, t: seq<seq<A>>)
    requires |s| == |t|
    requires forall i :: 0 <= i < |s| ==> Perm(s[i], t[i])
    ensures Perm(Flatten(s), Flatten(t))
  {
    if s != [] {
      assert Perm(s[0], t[0]);
      FlattenPerm(s[1..], t[1..]);
    }
  }

  // --------------------------------------------------------------- FlatMap

  lemma {:induction false} FlatMapAppend<A, B>(f: A -> seq<B>, s: seq<A>, t: seq<A>)
    ensures FlatMap(f, s + t) == FlatMap(f, s) + FlatMap(f, t)
  {
    if s == [] {
      assert s + t == t;
    } else {
      FlatMapAppend(f, s[1..], t);
      assert (s + t)[1..] == s[1..] + t;
      Assoc(f(s[0]), FlatMap(f, s[1..]), FlatMap(f, t));
    }
  }

  lemma {:induction false} FlatMapCons<A, B>(f: A -> seq<B>, x: A, s: seq<A>)
    ensures FlatMap(f, [x] + s) == f(x) + FlatMap(f, s)
  {
    assert ([x] + s)[1..] == s;
  }

  lemma {:induction false} FlatMapPerm<A, B>(f: A -> seq<B>, s: seq<A>, t: seq<A>)
    requires Perm(s, t)
    ensures Perm(FlatMap(f, s), FlatMap(f, t))
  {
    if s == [] {
      PermEmpty(t);
    } else {
      var front, back := PermSplit(s, t);
      FlatMapPerm(f, s[1..], front + back);
      FlatMapAppend(f, front, back);
      FlatMapAppend(f, front, [s[0]] + back);
      FlatMapCons(f, s[0], back);
    }
  }

  lemma {:induction false} FlatMapExt<A, B>(f: A -> seq<B>, g: A -> seq<B>, s: seq<A>)
    requires forall x :: x in s ==> f(x) == g(x)
    ensures FlatMap(f, s) == FlatMap(g, s)
  {
    if s != [] {
      FlatMapExt(f, g, s[1..]);
    }
  }

  lemma {:induction false} FlatMapFlatMap<A, B, C>(f: A -> seq<B>, g: B -> seq<C>, h: A -> seq<C>, s: seq<A>)
    requires forall x :: x in s ==> h(x) == FlatMap(g, f(x))
    ensures FlatMap(g, FlatMap(f, s)) == FlatMap(h, s)
  {
    if s != [] {
      FlatMapFlatMap(f, g, h, s[1..]);
      FlatMapAppend(g, f(s[0]), FlatMap(f, s[1..]));
    }
  }

  /** Working part by part is working on the whole. */
  lemma {:induction false} FlatMapFlatten<A, B>(f: A -> seq<B>, parts: seq<seq<A>>)
    ensures Flatten(Each(s => FlatMap(f, s), parts)) == FlatMap(f, Flatten(parts))
  {
    var each := Each(s => FlatMap(f, s), parts);
    if parts == [] {
      assert each == [];
    } else {
      FlatMapFlatten(f, parts[1..]);
      assert each[1..] == Each(s => FlatMap(f, s), parts[1..]);
      FlatMapAppend(f, parts[0], Flatten(parts[1..]));
    }
  }

  lemma {:induction false} FlatMapMember<A(!new), B>(f: A -> seq<B>, s: seq<A>, y: B)
    ensures y in FlatMap(f, s) <==> exists x :: x in s && y in f(x)
  {
    if s != [] {
      FlatMapMember(f, s[1..], y);
      assert forall x :: x in s <==> x == s[0] || x in s[1..];
    }
  }

  // ------------------------------------------------------------------ Pair

  lemma {:induction false} PairRowAppend<A, B, C>(m: (A, B) -> seq<C>, x: A, ys: seq<B>, zs: seq<B>)
    ensures PairRow(m, x, ys + zs) == PairRow(m, x, ys) + PairRow(m, x, zs)
  {
    if ys == [] {
      assert ys + zs == zs;
    } else {
      PairRowAppend(m, x, ys[1..], zs);
      assert (ys + zs)[1..] == ys[1..] + zs;
      Assoc(m(x, ys[0]), PairRow(m, x, ys[1..]), PairRow(m, x, zs));
    }
  }

  lemma {:induction false} PairAppendLeft<A, B, C>(m: (A, B) -> seq<C>, xs: seq<A>, zs: seq<A>, ys: seq<B>)
    ensures Pair(m, xs + zs, ys) == Pair(m, xs, ys) + Pair(m, zs, ys)
  {
    if xs == [] {
      assert xs + zs == zs;
    } else {
      PairAppendLeft(m, xs[1..], zs, ys);
      assert (xs + zs)[1..] == xs[1..] + zs;
      Assoc(PairRow(m, xs[0], ys), Pair(m, xs[1..], ys), Pair(m, zs, ys));
    }
  }

  lemma {:induction false} PairAppendRight<A, B, C>(m: (A, B) -> seq<C>, xs: seq<A>, ys: seq<B>, zs: seq<B>)
    ensures Perm(Pair(m, xs, ys + zs), Pair(m, xs, ys) + Pair(m, xs, zs))
  {
    if xs != [] {
      PairAppendRight(m, xs[1..], ys, zs);
      PairRowAppend(m, xs[0], ys, zs);
    }
  }

  lemma {:induction false} PairExt<A, B, C>(m: (A, B) -> seq<C>, n: (A, B) -> seq<C>, xs: seq<A>, ys: seq<B>)
    requires forall x, y :: x in xs && y in ys ==> m(x, y) == n(x, y)
    ensures Pair(m, xs, ys) == Pair(n, xs, ys)
  {
    if xs != [] {
      PairRowExt(m, n, xs[0], ys);
      PairExt(m, n, xs[1..], ys);
    }
  }

  lemma {:induction false} PairRowExt<A, B, C>(m: (A, B) -> seq<C>, n: (A, B) -> seq<C>, x: A, ys: seq<B>)
    requires forall y :: y in ys ==> m(x, y) == n(x, y)
    ensures PairRow(m, x, ys) == PairRow(n, x, ys)
  {
    if ys != [] {
      PairRowExt(m, n, x, ys[1..]);
    }
  }

  lemma {:induction false} PairEmptyRight<A, B, C>(m: (A, B) -> seq<C>, xs: seq<A>)
    ensures Pair(m, xs, []) == []
  {
    if xs != [] {
      PairEmptyRight(m, xs[1..]);
    }
  }

  /** Which side drives the loop does not change the bag. */
  lemma {:induction false} PairSwap<A, B, C>(
    m: (A, B) -> seq<C>, n: (B, A) -> seq<C>, xs: seq<A>, ys: seq<B>)
    requires forall x, y :: x in xs && y in ys ==> m(x, y) == n(y, x)
    ensures Perm(Pair(m, xs, ys), Pair(n, ys, xs))
  {
    if xs == [] {
      PairEmptyRight(n, ys);
    } else {
      PairSwap(m, n, xs[1..], ys);
      PairOneRight(m, n, xs[0], ys);
      PairAppendRight(n, ys, [xs[0]], xs[1..]);
      assert xs == [xs[0]] + xs[1..];
    }
  }

  lemma {:induction false} PairRowOne<A, B, C>(m: (A, B) -> seq<C>, x: A, y: B)
    ensures PairRow(m, x, [y]) == m(x, y)
  {
    assert [y][1..] == [];
    assert m(x, y) + PairRow(m, x, []) == m(x, y);
  }

  lemma {:induction false} PairOneRight<A, B, C>(
    m: (A, B) -> seq<C>, n: (B, A) -> seq<C>, x: A, ys: seq<B>)
    requires forall y :: y in ys ==> m(x, y) == n(y, x)
    ensures PairRow(m, x, ys) == Pair(n, ys, [x])
  {
    if ys != [] {
      PairOneRight(m, n, x, ys[1..]);
      PairRowOne(n, ys[0], x);
    }
  }

  lemma {:induction false} PairCons<A, B, C>(m: (A, B) -> seq<C>, x: A, xs: seq<A>, ys: seq<B>)
    ensures Pair(m, [x] + xs, ys) == PairRow(m, x, ys) + Pair(m, xs, ys)
  {
    assert ([x] + xs)[1..] == xs;
  }

  lemma {:induction false} PairPermLeft<A, B, C>(m: (A, B) -> seq<C>, xs: seq<A>, zs: seq<A>, ys: seq<B>)
    requires Perm(xs, zs)
    ensures Perm(Pair(m, xs, ys), Pair(m, zs, ys))
  {
    if xs == [] {
      PermEmpty(zs);
    } else {
      var front, back := PermSplit(xs, zs);
      PairPermLeft(m, xs[1..], front + back, ys);
      PairAppendLeft(m, front, back, ys);
      PairAppendLeft(m, front, [xs[0]] + back, ys);
      PairCons(m, xs[0], back, ys);
    }
  }

  /** A join respects reordering on both sides. */
  lemma {:induction false} PairPerm<A, B, C>(m: (A, B) -> seq<C>, xs: seq<A>, xs': seq<A>, ys: seq<B>, ys': seq<B>)
    requires Perm(xs, xs') && Perm(ys, ys')
    ensures Perm(Pair(m, xs, ys), Pair(m, xs', ys'))
  {
    var n := (y: B, x: A) => m(x, y);
    PairPermLeft(m, xs, xs', ys);
    PairSwap(m, n, xs', ys);
    PairPermLeft(n, ys, ys', xs');
    PairSwap(m, n, xs', ys');
  }

  /** Joining each left part with the whole right side joins the whole left side. */
  lemma {:induction false} PairFlattenLeft<A, B, C>(m: (A, B) -> seq<C>, parts: seq<seq<A>>, ys: seq<B>)
    ensures Flatten(Each(s => Pair(m, s, ys), parts)) == Pair(m, Flatten(parts), ys)
  {
    var each := Each(s => Pair(m, s, ys), parts);
    if parts == [] {
      assert each == [];
    } else {
      PairFlattenLeft(m, parts[1..], ys);
      assert each[1..] == Each(s => Pair(m, s, ys), parts[1..]);
      PairAppendLeft(m, parts[0], Flatten(parts[1..]), ys);
    }
  }

  lemma {:induction false} PairRowEmpty<A, B, C>(m: (A, B) -> seq<C>, x: A, ys: seq<B>)
    requires forall y :: y in ys ==> m(x, y) == []
    ensures PairRow(m, x, ys) == []
  {
    if ys != [] {
      PairRowEmpty(m, x, ys[1..]);
    }
  }

  /** Sides with no matching pair contribute nothing. */
  lemma {:induction false} PairEmpty<A, B, C>(m: (A, B) -> seq<C>, xs: seq<A>, ys: seq<B>)
    requires forall x, y :: x in xs && y in ys ==> m(x, y) == []
    ensures Pair(m, xs, ys) == []
  {
    if xs != [] {
      PairRowEmpty(m, xs[0], ys);
      PairEmpty(m, xs[1..], ys);
    }
  }

  lemma {:induction false} PairMember<A, B, C>(m: (A, B) -> seq<C>, xs: seq<A>, ys: seq<B>, z: C)
    requires z in Pair(m, xs, ys)
    ensures exists x, y :: x in xs && y in ys && z in m(x, y)
  {
    if z in PairRow(m, xs[0], ys) {
      PairRowMember(m, xs[0], ys, z);
    } else {
      PairMember(m, xs[1..], ys, z);
    }
  }

  lemma {:induction false} PairRowMember<A, B, C>(m: (A, B) -> seq<C>, x: A, ys: seq<B>, z: C)
    requires z in PairRow(m, x, ys)
    ensures exists y :: y in ys && z in m(x, y)
  {
    if z in m(x, ys[0]) {
    } else {
      PairRowMember(m, x, ys[1..], z);
    }
  }

  /** Each part of `xs` joined with the part of `ys` of the same number. */
  function PairEach<A, B, C>(m: (A, B) -> seq<C>, xs: seq<seq<A>>, ys: seq<seq<B>>): seq<seq<C>>
    requires |xs| == |ys|
  {
    if xs == [] then [] else [Pair(m, xs[0], ys[0])] + PairEach(m, xs[1..], ys[1..])
  }

  ghost predicate CoPartitioned<A(!new), B(!new), C>(m: (A, B) -> seq<C>, xs: seq<seq<A>>, ys: seq<seq<B>>) {
    forall i, j, x, y :: 0 <= i < |xs| && 0 <= j < |ys| && i != j && x in xs[i] && y in ys[j] ==> m(x, y) == []
  }

  /**
   The co-partitioned join: when matching elements always sit in parts of the
   same number, joining part by part is joining the whole.
   */
  lemma {:induction false} PairCoPartitioned<A(!new), B(!new), C>(
    m: (A, B) -> seq<C>, xs: seq<seq<A>>, ys: seq<seq<B>>)
    requires |xs| == |ys|
    requires CoPartitioned(m, xs, ys)
    ensures Perm(Flatten(PairEach(m, xs, ys)), Pair(m, Flatten(xs), Flatten(ys)))
  {
    if xs != [] {
      var (xt, yt) := (xs[1..], ys[1..]);
      assert CoPartitioned(m, xt, yt);
      PairCoPartitioned(m, xt, yt);
      CoPartitionedHeads(m, xs, ys);
      PairAppendLeft(m, xs[0], Flatten(xt), Flatten(ys));
      PairAppendRight(m, xs[0], ys[0], Flatten(yt));
      PairAppendRight(m, Flatten(xt), ys[0], Flatten(yt));
    }
  }

  lemma {:induction false} CoPartitionedHeads<A(!new), B(!new), C>(m: (A, B) -> seq<C>, xs: seq<seq<A>>,
                                                ys: seq<seq<B>>)
    requires |xs| == |ys| > 0
    requires CoPartitioned(m, xs, ys)
    ensures Pair(m, xs[0], Flatten(ys[1..])) == []
    ensures Pair(m, Flatten(xs[1..]), ys[0]) == []
  {
    var (xt, yt) := (xs[1..], ys[1..]);
    forall x, y | x in xs[0] && y in Flatten(yt) ensures m(x, y) == [] {
      FlattenMember(yt, y);
      var j :| 0 <= j < |yt| && y in yt[j];
      assert y in ys[j + 1];
    }
    PairEmpty(m, xs[0], Flatten(yt));
    forall x, y | x in Flatten(xt) && y in ys[0] ensures m(x, y) == [] {
      FlattenMember(xt, x);
      var j :| 0 <= j < |xt| && x in xt[j];
      assert x in xs[j + 1];
    }
    PairEmpty(m, Flatten(xt), ys[0]);
  }
}
