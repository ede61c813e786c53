/**
 Plans on the wire: each device node is described by its parameters, written in
 postcard behind a header, and rebuilt from them over the children it is given.
 */
module Codec {
  import opened Core
  import opened Postcard

  // ----------------------------------------------------------------------- nodes

  /** One device node without its children. */
  datatype GpuNode =
    | FilterNode(target: BackendKind, filter: Predicate, cols: seq<nat>)
    | HashJoinNode(target: BackendKind, leftKey: nat, rightKey: nat, projection: Option<seq<nat>>)
    | AggregateNode(target: BackendKind, spec: AggregateSpec, output: seq<(string, bool)>)
    | DistanceNode(target: BackendKind, column: nat, query: seq<u32>, metric: DistanceMetric, name: string)

  // ------------------------------------------------------------------ enumerations

  function BackendTag(t: BackendKind): nat {
    match t
    case CpuSimd => 0
    case Cuda => 1
    case Metal => 2
  }

  function OpTag(op: Comparison): nat {
    match op
    case Eq => 0
    case Lt => 1
    case LtEq => 2
    case Gt => 3
    case GtEq => 4
  }

  function FnTag(f: AggFn): nat {
    match f
    case Sum => 0
    case Count => 1
    case Min => 2
    case Max => 3
  }

  function MetricTag(m: DistanceMetric): nat {
    match m
    case L2 => 0
    case Cosine => 1
  }

  const BACKENDS: seq<BackendKind> := [CpuSimd, Cuda, Metal]
  const OPS: seq<Comparison> := [Eq, Lt, LtEq, Gt, GtEq]
  const FNS: seq<AggFn> := [Sum, Count, Min, Max]
  const METRICS: seq<DistanceMetric> := [L2, Cosine]

  /** A discriminant, resolved in a list of variants. */
  function TakeVariant<T>(variants: seq<T>, b: Bytes): (r: Parsed<T>)
    ensures r.Some? ==> |r.value.1| < |b|
  {
    match TakeU32(b)
    case None => None
    case Some((n, rest)) => if n < |variants| then Some((variants[n], rest)) else None
  }

  lemma {:induction false} VariantTrip<T>(variants: seq<T>, n: nat, rest: Bytes)
    requires n < |variants| && n < TWO_32
    ensures TakeVariant(variants, Varint(n) + rest) == Some((variants[n], rest))
  {
    U32Trip(n, rest);
  }

  // -------------------------------------------------------------------- predicates

  function LiteralBytes(l: Literal): Bytes {
    match l
    case IntLit(i) => Varint(0) + Varint(Zigzag(i))
    case FloatLit(f) => Varint(1) + LittleEndian(f, 8)
  }

  function TakeLiteral(b: Bytes): (r: Parsed<Literal>)
    ensures r.Some? ==> |r.value.1| < |b|
  {
    match TakeU32(b)
    case None => None
    case Some((tag, rest)) =>
      if tag == 0 then
        (match TakeI64(rest)
         case None => None
         case Some((i, last)) => Some((IntLit(i), last)))
      else if tag == 1 then
        (match TakeF64(rest)
         case None => None
         case Some((f, last)) => Some((FloatLit(f), last)))
      else None
  }

  lemma {:induction false} LiteralTrip(l: Literal, rest: Bytes)
    ensures TakeLiteral(LiteralBytes(l) + rest) == Some((l, rest))
  {
    match l
    case IntLit(i) =>
      assert LiteralBytes(l) + rest == Varint(0) + (Varint(Zigzag(i)) + rest);
      U32Trip(0, Varint(Zigzag(i)) + rest);
      I64Trip(i, rest);
    case FloatLit(f) =>
      assert LiteralBytes(l) + rest == Varint(1) + (LittleEndian(f, 8) + rest);
      U32Trip(1, LittleEndian(f, 8) + rest);
      Powers();
      FixedTrip(f, 8, rest);
  }

  function PredicateBytes(p: Predicate): Bytes {
    match p
    case Compare(c, op, l) => Varint(0) + (Varint(c) + (Varint(OpTag(op)) + LiteralBytes(l)))
    case And(l, r) => Varint(1) + (PredicateBytes(l) + PredicateBytes(r))
  }

  function TakeCompare(b: Bytes): (r: Parsed<Predicate>)
    ensures r.Some? ==> |r.value.1| < |b|
  {
    match TakeU64(b)
    case None => None
    case Some((c, b1)) =>
      match TakeVariant(OPS, b1)
      case None => None
      case Some((op, b2)) =>
        match TakeLiteral(b2)
        case None => None
        case Some((l, rest)) => Some((Compare(c, op, l), rest))
  }

  function TakePredicate(b: Bytes): (r: Parsed<Predicate>)
    ensures r.Some? ==> |r.value.1| < |b|
    decreases |b|
  {
    match TakeU32(b)
    case None => None
    case Some((tag, b1)) =>
      if tag == 0 then TakeCompare(b1)
      else if tag == 1 then
        (match TakePredicate(b1)
         case None => None
         case Some((l, b2)) =>
           match TakePredicate(b2)
           case None => None
           case Some((r, rest)) => Some((And(l, r), rest)))
      else None
  }

  /** Column indices are machine words. */
  predicate WireIndex(n: nat) {
    n < TWO_64
  }

  ghost predicate WirePredicate(p: Predicate) {
    match p
    case Compare(c, _, _) => WireIndex(c)
    case And(l, r) => WirePredicate(l) && WirePredicate(r)
  }

  lemma {:induction false} CompareTrip(c: nat, op: Comparison, l: Literal, rest: Bytes)
    requires WireIndex(c)
    ensures TakeCompare(Varint(c) + (Varint(OpTag(op)) + LiteralBytes(l)) + rest) == Some((Compare(c, op, l), rest))
  {
    var b2 := LiteralBytes(l) + rest;
    var b1 := Varint(OpTag(op)) + b2;
    assert Varint(c) + (Varint(OpTag(op)) + LiteralBytes(l)) + rest == Varint(c) + b1;
    U64Trip(c, b1);
    VariantTrip(OPS, OpTag(op), b2);
    LiteralTrip(l, rest);
  }

  lemma {:induction false} Cat(a: Bytes, b: Bytes, c: Bytes)
    ensures (a + b) + c == a + (b + c)
  {
  }

  lemma {:induction false} PredicateTrip(p: Predicate, rest: Bytes)
    requires WirePredicate(p)
    ensures TakePredicate(PredicateBytes(p) + rest) == Some((p, rest))
  {
    match p
    case Compare(c, op, l) =>
      var body := Varint(c) + (Varint(OpTag(op)) + LiteralBytes(l));
      Cat(Varint(0), body, rest);
      U32Trip(0, body + rest);
      CompareTrip(c, op, l, rest);
    case And(l, r) =>
      var (x, y) := (PredicateBytes(l), PredicateBytes(r));
      Cat(Varint(1), x + y, rest);
      Cat(x, y, rest);
      U32Trip(1, x + (y + rest));
      PredicateTrip(l, y + rest);
      PredicateTrip(r, rest);
  }

  // ------------------------------------------------------------------------- parts

  function Indices(xs: seq<nat>): Bytes {
    Sequence(Varint, xs)
  }

  function TakeIndices(b: Bytes): Parsed<seq<nat>> {
    TakeSequence(TakeU64, b)
  }

  ghost predicate WireIndices(xs: seq<nat>) {
    WireIndex(|xs|) && forall i :: 0 <= i < |xs| ==> WireIndex(xs[i])
  }

  lemma {:induction false} IndicesTrip(xs: seq<nat>, rest: Bytes)
    requires WireIndices(xs)
    ensures TakeIndices(Indices(xs) + rest) == Some((xs, rest))
  {
    forall x | x in xs ensures Undoes(Varint, TakeU64, x) {
      forall r: Bytes ensures UndoesBefore(Varint, TakeU64, x, r) {
        U64Trip(x, r);
      }
    }
    SequenceTrip(Varint, TakeU64, xs, rest);
  }

  function ProjectionBytes(p: Option<seq<nat>>): Bytes {
    match p
    case None => [0]
    case Some(xs) => [1] + Indices(xs)
  }

  function TakeProjection(b: Bytes): Parsed<Option<seq<nat>>> {
    match TakeBool(b)
    case None => None
    case Some((some, rest)) =>
      if !some then Some((None, rest))
      else
        match TakeIndices(rest)
        case None => None
        case Some((xs, last)) => Some((Some(xs), last))
  }

  lemma {:induction false} ProjectionTrip(p: Option<seq<nat>>, rest: Bytes)
    requires p.Some? ==> WireIndices(p.value)
    ensures TakeProjection(ProjectionBytes(p) + rest) == Some((p, rest))
  {
    match p
    case None =>
      assert Flag(false) == [0];
      BoolTrip(false, rest);
    case Some(xs) =>
      assert Flag(true) == [1];
      Cat([1], Indices(xs), rest);
      BoolTrip(true, Indices(xs) + rest);
      IndicesTrip(xs, rest);
  }

  function AggBytes(a: (AggFn, nat)): Bytes {
    Varint(FnTag(a.0)) + Varint(a.1)
  }

  function TakeAgg(b: Bytes): Parsed<(AggFn, nat)> {
    match TakeVariant(FNS, b)
    case None => None
    case Some((f, b1)) =>
      match TakeU64(b1)
      case None => None
      case Some((c, rest)) => Some(((f, c), rest))
  }

  lemma {:induction false} AggTrip(a: (AggFn, nat), rest: Bytes)
    requires WireIndex(a.1)
    ensures TakeAgg(AggBytes(a) + rest) == Some((a, rest))
  {
    Cat(Varint(FnTag(a.0)), Varint(a.1), rest);
    VariantTrip(FNS, FnTag(a.0), Varint(a.1) + rest);
    U64Trip(a.1, rest);
  }

  function OutputBytes(o: (string, bool)): Bytes {
    Text(o.0) + Flag(o.1)
  }

  function TakeOutput(b: Bytes): Parsed<(string, bool)> {
    match TakeText(b)
    case None => None
    case Some((s, b1)) =>
      match TakeBool(b1)
      case None => None
      case Some((x, rest)) => Some(((s, x), rest))
  }

  lemma {:induction false} OutputTrip(o: (string, bool), rest: Bytes)
    requires WireIndex(|ToUtf8(o.0)|)
    ensures TakeOutput(OutputBytes(o) + rest) == Some((o, rest))
  {
    Cat(Text(o.0), Flag(o.1), rest);
    TextTrip(o.0, Flag(o.1) + rest);
    BoolTrip(o.1, rest);
  }

  function F32Bytes(x: u32): Bytes {
    LittleEndian(x, 4)
  }

  // -------------------------------------------------------------------- whole nodes

  function FilterBytes(n: GpuNode): Bytes
    requires n.FilterNode?
  {
    Varint(BackendTag(n.target)) + (PredicateBytes(n.filter) + Indices(n.cols))
  }

  function JoinBytes(n: GpuNode): Bytes
    requires n.HashJoinNode?
  {
    Varint(BackendTag(n.target)) + (Varint(n.leftKey) + (Varint(n.rightKey) + ProjectionBytes(n.projection)))
  }

  function AggregateBytes(n: GpuNode): Bytes
    requires n.AggregateNode?
  {
    Varint(BackendTag(n.target)) + (Varint(n.spec.groupBy) + (Sequence(AggBytes, n.spec.aggregates) + Sequence(OutputBytes, n.output)))
  }

  function DistanceBytes(n: GpuNode): Bytes
    requires n.DistanceNode?
  {
    Varint(BackendTag(n.target)) + (Varint(n.column) + (Sequence(F32Bytes, n.query) + (Varint(MetricTag(n.metric)) + Text(n.name))))
  }

  function NodeBytes(n: GpuNode): Bytes {
    match n
    case FilterNode(_, _, _) => Varint(0) + FilterBytes(n)
    case HashJoinNode(_, _, _, _) => Varint(1) + JoinBytes(n)
    case AggregateNode(_, _, _) => Varint(2) + AggregateBytes(n)
    case DistanceNode(_, _, _, _, _) => Varint(3) + DistanceBytes(n)
  }

  function TakeFilter(b: Bytes): Parsed<GpuNode> {
    match TakeVariant(BACKENDS, b)
    case None => None
    case Some((t, b1)) =>
      match TakePredicate(b1)
      case None => None
      case Some((p, b2)) =>
        match TakeIndices(b2)
        case None => None
        case Some((cols, rest)) => Some((FilterNode(t, p, cols), rest))
  }

  function TakeJoin(b: Bytes): Parsed<GpuNode> {
    match TakeVariant(BACKENDS, b)
    case None => None
    case Some((t, b1)) =>
      match TakeU64(b1)
      case None => None
      case Some((lk, b2)) =>
        match TakeU64(b2)
        case None => None
        case Some((rk, b3)) =>
          match TakeProjection(b3)
          case None => None
          case Some((p, rest)) => Some((HashJoinNode(t, lk, rk, p), rest))
  }

  function TakeAggregate(b: Bytes): Parsed<GpuNode> {
    match TakeVariant(BACKENDS, b)
    case None => None
    case Some((t, b1)) =>
      match TakeU64(b1)
      case None => None
      case Some((g, b2)) =>
        match TakeSequence(TakeAgg, b2)
        case None => None
        case Some((aggs, b3)) =>
          match TakeSequence(TakeOutput, b3)
          case None => None
          case Some((out, rest)) => Some((AggregateNode(t, AggregateSpec(g, aggs), out), rest))
  }

  function TakeDistance(b: Bytes): Parsed<GpuNode> {
    match TakeVariant(BACKENDS, b)
    case None => None
    case Some((t, b1)) =>
      match TakeU64(b1)
      case None => None
      case Some((c, b2)) =>
        match TakeSequence(TakeF32, b2)
        case None => None
        case Some((q, b3)) =>
          match TakeVariant(METRICS, b3)
          case None => None
          case Some((m, b4)) =>
            match TakeText(b4)
            case None => None
            case Some((name, rest)) => Some((DistanceNode(t, c, q, m, name), rest))
  }

  function TakeNode(b: Bytes): Parsed<GpuNode> {
    match TakeU32(b)
    case None => None
    case Some((tag, rest)) =>
      if tag == 0 then TakeFilter(rest)
      else if tag == 1 then TakeJoin(rest)
      else if tag == 2 then TakeAggregate(rest)
      else if tag == 3 then TakeDistance(rest)
      else None
  }

  /** Indices, counts and string lengths are machine words, as they are in the running program. */
  ghost predicate WireNode(n: GpuNode) {
    match n
    case FilterNode(_, p, cols) => WirePredicate(p) && WireIndices(cols)
    case HashJoinNode(_, lk, rk, proj) => WireIndex(lk) && WireIndex(rk) && (proj.Some? ==> WireIndices(proj.value))
    case AggregateNode(_, spec, out) =>
      && WireIndex(spec.groupBy) && WireIndex(|spec.aggregates|) && WireIndex(|out|)
      && (forall i :: 0 <= i < |spec.aggregates| ==> WireIndex(spec.aggregates[i].1))
      && (forall i :: 0 <= i < |out| ==> WireIndex(|ToUtf8(out[i].0)|))
    case DistanceNode(_, c, q, _, name) => WireIndex(c) && WireIndex(|q|) && WireIndex(|ToUtf8(name)|)
  }

  lemma {:induction false} BackendTrip(t: BackendKind, rest: Bytes)
    ensures TakeVariant(BACKENDS, Varint(BackendTag(t)) + rest) == Some((t, rest))
  {
    VariantTrip(BACKENDS, BackendTag(t), rest);
  }

  lemma {:induction false} FilterTrip(n: GpuNode, rest: Bytes)
    requires n.FilterNode? && WireNode(n)
    ensures TakeFilter(FilterBytes(n) + rest) == Some((n, rest))
  {
    var (t, p, xs) := (Varint(BackendTag(n.target)), PredicateBytes(n.filter), Indices(n.cols));
    Cat(t, p + xs, rest);
    Cat(p, xs, rest);
    BackendTrip(n.target, p + (xs + rest));
    PredicateTrip(n.filter, xs + rest);
    IndicesTrip(n.cols, rest);
  }

  lemma {:induction false} JoinTrip(n: GpuNode, rest: Bytes)
    requires n.HashJoinNode? && WireNode(n)
    ensures TakeJoin(JoinBytes(n) + rest) == Some((n, rest))
  {
    var (t, l, r, p) := (Varint(BackendTag(n.target)), Varint(n.leftKey), Varint(n.rightKey), ProjectionBytes(n.projection));
    Cat(t, l + (r + p), rest);
    Cat(l, r + p, rest);
    Cat(r, p, rest);
    BackendTrip(n.target, l + (r + (p + rest)));
    U64Trip(n.leftKey, r + (p + rest));
    U64Trip(n.rightKey, p + rest);
    ProjectionTrip(n.projection, rest);
  }

  lemma {:induction false} AggsTrip(xs: seq<(AggFn, nat)>, rest: Bytes)
    requires WireIndex(|xs|) && forall i :: 0 <= i < |xs| ==> WireIndex(xs[i].1)
    ensures TakeSequence(TakeAgg, Sequence(AggBytes, xs) + rest) == Some((xs, rest))
  {
    forall x | x in xs ensures Undoes(AggBytes, TakeAgg, x) {
      forall r: Bytes ensures UndoesBefore(AggBytes, TakeAgg, x, r) {
        AggTrip(x, r);
      }
    }
    SequenceTrip(AggBytes, TakeAgg, xs, rest);
  }

  lemma {:induction false} OutputsTrip(xs: seq<(string, bool)>, rest: Bytes)
    requires WireIndex(|xs|) && forall i :: 0 <= i < |xs| ==> WireIndex(|ToUtf8(xs[i].0)|)
    ensures TakeSequence(TakeOutput, Sequence(OutputBytes, xs) + rest) == Some((xs, rest))
  {
    forall x | x in xs ensures Undoes(OutputBytes, TakeOutput, x) {
      forall r: Bytes ensures UndoesBefore(OutputBytes, TakeOutput, x, r) {
        OutputTrip(x, r);
      }
    }
    SequenceTrip(OutputBytes, TakeOutput, xs, rest);
  }

  lemma {:induction false} FloatsTrip(xs: seq<u32>, rest: Bytes)
    requires WireIndex(|xs|)
    ensures TakeSequence(TakeF32, Sequence(F32Bytes, xs) + rest) == Some((xs, rest))
  {
    forall x | x in xs ensures Undoes(F32Bytes, TakeF32, x) {
      forall r: Bytes ensures UndoesBefore(F32Bytes, TakeF32, x, r) {
        Powers();
        FixedTrip(x, 4, r);
      }
    }
    SequenceTrip(F32Bytes, TakeF32, xs, rest);
  }

  lemma {:induction false} AggregateTrip(n: GpuNode, rest: Bytes)
    requires n.AggregateNode? && WireNode(n)
    ensures TakeAggregate(AggregateBytes(n) + rest) == Some((n, rest))
  {
    var (t, g) := (Varint(BackendTag(n.target)), Varint(n.spec.groupBy));
    var (a, o) := (Sequence(AggBytes, n.spec.aggregates), Sequence(OutputBytes, n.output));
    Cat(t, g + (a + o), rest);
    Cat(g, a + o, rest);
    Cat(a, o, rest);
    BackendTrip(n.target, g + (a + (o + rest)));
    U64Trip(n.spec.groupBy, a + (o + rest));
    AggsTrip(n.spec.aggregates, o + rest);
    OutputsTrip(n.output, rest);
  }

  lemma {:induction false} DistanceTrip(n: GpuNode, rest: Bytes)
    requires n.DistanceNode? && WireNode(n)
    ensures TakeDistance(DistanceBytes(n) + rest) == Some((n, rest))
  {
    var (t, c, q) := (Varint(BackendTag(n.target)), Varint(n.column), Sequence(F32Bytes, n.query));
    var (m, s) := (Varint(MetricTag(n.metric)), Text(n.name));
    Cat(t, c + (q + (m + s)), rest);
    Cat(c, q + (m + s), rest);
    Cat(q, m + s, rest);
    Cat(m, s, rest);
    BackendTrip(n.target, c + (q + (m + (s + rest))));
    U64Trip(n.column, q + (m + (s + rest)));
    FloatsTrip(n.query, m + (s + rest));
    VariantTrip(METRICS, MetricTag(n.metric), s + rest);
    TextTrip(n.name, rest);
  }

  /** Every node reads back as it was written, whatever follows it. */
  lemma {:induction false} NodeTrip(n: GpuNode, rest: Bytes)
    requires WireNode(n)
    ensures TakeNode(NodeBytes(n) + rest) == Some((n, rest))
  {
    match n
    case FilterNode(_, _, _) =>
      Cat(Varint(0), FilterBytes(n), rest);
      U32Trip(0, FilterBytes(n) + rest);
      FilterTrip(n, rest);
    case HashJoinNode(_, _, _, _) =>
      Cat(Varint(1), JoinBytes(n), rest);
      U32Trip(1, JoinBytes(n) + rest);
      JoinTrip(n, rest);
    case AggregateNode(_, _, _) =>
      Cat(Varint(2), AggregateBytes(n), rest);
      U32Trip(2, AggregateBytes(n) + rest);
      AggregateTrip(n, rest);
    case DistanceNode(_, _, _, _, _) =>
      Cat(Varint(3), DistanceBytes(n), rest);
      U32Trip(3, DistanceBytes(n) + rest);
      DistanceTrip(n, rest);
  }

  /** No encoding begins another: different nodes are told apart by their bytes alone. */
  lemma {:induction false} PrefixFree(n: GpuNode, m: GpuNode, rest: Bytes, rest': Bytes)
    requires WireNode(n) && WireNode(m) && NodeBytes(n) + rest == NodeBytes(m) + rest'
    ensures n == m && rest == rest'
  {
    NodeTrip(n, rest);
    NodeTrip(m, rest');
  }
}
