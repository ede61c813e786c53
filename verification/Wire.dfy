/**
 The plan codec: which nodes it takes, the header it puts before their bytes, what it
 refuses, and the node it rebuilds at the other end.
 */
module Wire {
  import opened Core
  import opened Plans
  import opened Execs
  import opened Placement
  import opened Postcard
  import opened Fingerprints
  import opened Codec

  // -------------------------------------------------------------- describe, build

  function OutputOf(s: Schema): (r: seq<(string, bool)>)
    ensures |r| == |s| && forall i :: 0 <= i < |s| ==> r[i] == (s[i].name, s[i].nullable)
  {
    seq(|s|, i requires 0 <= i < |s| => (s[i].name, s[i].nullable))
  }

  /** A device node's parameters; any other node is somebody else's. */
  function Describe(p: Plan): Option<GpuNode> {
    match p
    case GpuFilter(pred, cols, t, _) => Some(FilterNode(t, pred, cols))
    case GpuHashJoin(lk, rk, proj, t, _, _) => Some(HashJoinNode(t, lk, rk, proj))
    case GpuAggregate(spec, s, t, _) => Some(AggregateNode(t, spec, OutputOf(s)))
    case GpuVectorDistance(c, q, m, name, t, _) => Some(DistanceNode(t, c, q, m, name))
    case _ => None
  }

  function Children(p: Plan): seq<Plan> {
    match p
    case GpuFilter(_, _, _, i) => [i]
    case GpuHashJoin(_, _, _, _, l, r) => [l, r]
    case GpuAggregate(_, _, _, i) => [i]
    case GpuVectorDistance(_, _, _, _, _, i) => [i]
    case _ => []
  }

  /** Planned names and nullability over the derived types. */
  function Renamed(s: Schema, output: seq<(string, bool)>): (r: Schema)
    requires |output| == |s|
    ensures |r| == |s| && forall i :: 0 <= i < |s| ==> r[i] == Field(output[i].0, s[i].dtype, output[i].1)
  {
    seq(|s|, i requires 0 <= i < |s| => Field(output[i].0, s[i].dtype, output[i].1))
  }

  function BuildAggregate(input: Plan, spec: AggregateSpec, output: seq<(string, bool)>, t: BackendKind): Result<Plan> {
    var exec :- NewAggregate(input, spec, t);
    if |output| != |exec.schema| then Err(PlanError) else WithOutputSchema(exec, Renamed(exec.schema, output))
  }

  function BuildJoin(l: Plan, r: Plan, lk: nat, rk: nat, proj: Option<seq<nat>>, t: BackendKind): Result<Plan> {
    var bare :- NewHashJoin(l, r, lk, rk, t);
    WithProjection(bare, proj)
  }

  /** Rebuilds a node over the children it arrived with, through the checked constructors. */
  function Build(n: GpuNode, inputs: seq<Plan>): Result<Plan> {
    match n
    case FilterNode(t, pred, cols) => if |inputs| < 1 then Err(PlanError) else NewFilter(inputs[0], pred, cols, t)
    case HashJoinNode(t, lk, rk, proj) => if |inputs| < 2 then Err(PlanError) else BuildJoin(inputs[0], inputs[1], lk, rk, proj, t)
    case AggregateNode(t, spec, out) => if |inputs| < 1 then Err(PlanError) else BuildAggregate(inputs[0], spec, out, t)
    case DistanceNode(t, c, q, m, name) => if |inputs| < 1 then Err(PlanError) else NewVectorDistance(inputs[0], c, q, m, name, t)
  }

  /** A device node as the checked constructors make it. */
  ghost predicate Checked(p: Plan) {
    match p
    case GpuFilter(pred, cols, t, i) => NewFilter(i, pred, cols, t) == Ok(p)
    case GpuHashJoin(lk, rk, proj, t, l, r) => BuildJoin(l, r, lk, rk, proj, t) == Ok(p)
    case GpuAggregate(spec, s, t, i) => NewAggregate(i, spec, t).Ok? && WithOutputSchema(NewAggregate(i, spec, t).value, s) == Ok(p)
    case GpuVectorDistance(c, q, m, name, t, i) => NewVectorDistance(i, c, q, m, name, t) == Ok(p)
    case _ => false
  }

  lemma {:induction false} SameSchema(derived: Schema, s: Schema)
    requires SameTypes(s, derived)
    ensures |OutputOf(s)| == |derived| && Renamed(derived, OutputOf(s)) == s
  {
    forall i | 0 <= i < |s| ensures Renamed(derived, OutputOf(s))[i] == s[i] {
    }
  }

  /** Building from a description, over the same children, gives the node back. */
  lemma {:induction false} BuildDescribes(p: Plan)
    requires Checked(p)
    ensures Describe(p).Some? && Build(Describe(p).value, Children(p)) == Ok(p)
  {
    match p
    case GpuFilter(_, _, _, _) =>
    case GpuHashJoin(_, _, _, _, _, _) =>
    case GpuAggregate(spec, s, t, i) => SameSchema(NewAggregate(i, spec, t).value.schema, s);
    case GpuVectorDistance(_, _, _, _, _, _) =>
  }

  /** Whatever is built describes itself as what it was built from, over exactly its children. */
  lemma {:induction false} DescribesBuilt(n: GpuNode, inputs: seq<Plan>)
    requires Build(n, inputs).Ok?
    ensures var p := Build(n, inputs).value;
            Checked(p) && Describe(p) == Some(n) && |Children(p)| <= |inputs| && Children(p) == inputs[..|Children(p)|]
  {
    var p := Build(n, inputs).value;
    match n
    case FilterNode(_, _, _) => assert inputs[..1] == [inputs[0]];
    case HashJoinNode(_, _, _, _) => assert inputs[..2] == [inputs[0], inputs[1]];
    case AggregateNode(t, spec, out) =>
      assert inputs[..1] == [inputs[0]];
      assert OutputOf(p.schema) == out;
    case DistanceNode(_, _, _, _, _) => assert inputs[..1] == [inputs[0]];
  }

  // ---------------------------------------------------------------- placed nodes

  /** Every node the placement rule makes is a checked one. */
  lemma {:induction false} PlacedIsChecked(target: BackendKind, p: Plan)
    requires Lowered(target, p).Ok? && Lowered(target, p).value.Some?
    ensures Checked(Lowered(target, p).value.value)
  {
    match p
    case Filter(_, _, _) =>
    case Projection(_, _) =>
    case HashJoin(_, _, _, _, _) =>
    case SortMergeJoin(_, _, _) =>
    case Aggregate(_, _, _, _) =>
  }

  // -------------------------------------------------------------------- the frame

  const MAGIC: Bytes := [0x4f, 0x58, 0x47, 0x50]
  const HEADER: nat := 9

  /** The codec's answer: its own result, or the wrapped codec's turn. */
  datatype Decoded = Ours(result: Result<Plan>) | Delegated

  function Frame(n: GpuNode, fingerprint: u32): Bytes {
    MAGIC + [VERSION] + LittleEndian(fingerprint, 4) + NodeBytes(n)
  }

  /** The bytes of a device node; any other node is delegated. */
  function TryEncode(p: Plan, fingerprint: u32): Option<Bytes> {
    match Describe(p)
    case None => None
    case Some(n) => Some(Frame(n, fingerprint))
  }

  /** Appends a device node's frame to the buffer; leaves the buffer alone for any other node. */
  method AppendEncoded(p: Plan, fingerprint: u32, buf: Bytes) returns (taken: bool, out: Bytes)
    ensures taken == TryEncode(p, fingerprint).Some?
    ensures out == if taken then buf + TryEncode(p, fingerprint).value else buf
  {
    out := buf;
    match Describe(p) {
      case None =>
        taken := false;
      case Some(n) =>
        out := out + MAGIC;
        out := out + [VERSION];
        out := out + LittleEndian(fingerprint, 4);
        out := out + NodeBytes(n);
        taken := true;
    }
  }

  function CheckFingerprint(tag: Bytes, ours: u32): bool {
    FromLittleEndian(tag) == ours
  }

  function TryDecode(buf: Bytes, inputs: seq<Plan>, ours: u32): Decoded {
    if |buf| <= HEADER || buf[..4] != MAGIC then Delegated
    else if buf[4] != VERSION then Ours(Err(ExecutionError))
    else if !CheckFingerprint(buf[5..HEADER], ours) then Ours(Err(ExecutionError))
    else
      match TakeNode(buf[HEADER..])
      case None => Ours(Err(ExecutionError))
      case Some((n, _)) => Ours(Build(n, inputs))
  }

  lemma {:induction false} Parts(magic: Bytes, version: byte, tag: Bytes, body: Bytes, rest: Bytes)
    requires |magic| == 4 && |tag| == 4
    ensures var buf := magic + [version] + tag + body + rest;
            && |buf| == 9 + |body + rest| && buf[..4] == magic && buf[4] == version && buf[5..9] == tag
              && buf[9..] == body + rest
  {
  }

  lemma {:induction false} FrameParts(n: GpuNode, fingerprint: u32, rest: Bytes)
    ensures var buf := Frame(n, fingerprint) + rest;
            && |buf| > HEADER && buf[..4] == MAGIC && buf[4] == VERSION
            && buf[5..HEADER] == LittleEndian(fingerprint, 4) && buf[HEADER..] == NodeBytes(n) + rest
  {
    NodeNotEmpty(n);
    Parts(MAGIC, VERSION, LittleEndian(fingerprint, 4), NodeBytes(n), rest);
  }

  lemma {:induction false} NodeNotEmpty(n: GpuNode)
    ensures NodeBytes(n) != []
  {
  }

  lemma {:induction false} TagReads(fingerprint: u32)
    ensures FromLittleEndian(LittleEndian(fingerprint, 4)) == fingerprint
  {
    Powers();
    EndianTrip(fingerprint, 4);
  }

  /** A checked node crosses between agreeing builds unchanged, even with bytes after it. */
  lemma {:induction false} WireTrip(p: Plan, fingerprint: u32, rest: Bytes)
    requires Checked(p) && WireNode(Describe(p).value)
    ensures TryEncode(p, fingerprint).Some?
    ensures TryDecode(TryEncode(p, fingerprint).value + rest, Children(p), fingerprint) == Ours(Ok(p))
  {
    var n := Describe(p).value;
    FrameParts(n, fingerprint, rest);
    TagReads(fingerprint);
    NodeTrip(n, rest);
    BuildDescribes(p);
  }

  /** A frame is refused if and only if the fingerprints differ or the node does not fit its children. */
  lemma {:induction false} RefusedIff(n: GpuNode, theirs: u32, ours: u32, inputs: seq<Plan>)
    requires WireNode(n)
    ensures TryDecode(Frame(n, theirs), inputs, ours).Ours?
    ensures TryDecode(Frame(n, theirs), inputs, ours).result.Err? <==> theirs != ours || Build(n, inputs).Err?
  {
    assert Frame(n, theirs) + [] == Frame(n, theirs);
    FrameParts(n, theirs, []);
    TagReads(theirs);
    NodeTrip(n, []);
  }

  /** Across builds of one version, a plan is read if and only if the features agree. */
  lemma {:induction false} FeatureMismatchRefused(p: Plan, version: Bytes, theirs: u32, ours: u32)
    requires Checked(p) && WireNode(Describe(p).value) && theirs < 256 && ours < 256
    ensures TryDecode(Frame(Describe(p).value, Fingerprint(version, theirs)), Children(p), Fingerprint(version, ours))
         == Ours(if theirs == ours then Ok(p) else Err(ExecutionError))
  {
    var n := Describe(p).value;
    FeaturesShow(version, theirs, ours);
    RefusedIff(n, Fingerprint(version, theirs), Fingerprint(version, ours), Children(p));
    if theirs == ours {
      WireTrip(p, Fingerprint(version, ours), []);
      assert Frame(n, Fingerprint(version, theirs)) + [] == Frame(n, Fingerprint(version, theirs));
    } else {
      FrameParts(n, Fingerprint(version, theirs), []);
      TagReads(Fingerprint(version, theirs));
      assert Frame(n, Fingerprint(version, theirs)) + [] == Frame(n, Fingerprint(version, theirs));
    }
  }

  // ------------------------------------------------------------- recorded encodings

  lemma {:induction false} SmallItems(xs: seq<nat>)
    requires forall i :: 0 <= i < |xs| ==> xs[i] < 128
    ensures |Items(Varint, xs)| == |xs| && forall i :: 0 <= i < |xs| ==> Items(Varint, xs)[i] == xs[i]
  {
    if xs != [] {
      SmallItems(xs[1..]);
    }
  }

  /** The recorded bytes of a filter. */
  lemma {:induction false} RecordedFilter()
    ensures NodeBytes(FilterNode(Cuda, Compare(3, Gt, IntLit(17)), [5, 8])) == [0x00, 0x01, 0x00, 0x03, 0x03, 0x00, 0x22, 0x02, 0x05, 0x08]
  {
    RecordedPredicate();
    RecordedColumns();
    var (leaf, columns) := ([0x00, 0x03, 0x03, 0x00, 0x22], [0x02, 0x05, 0x08]);
    assert NodeBytes(FilterNode(Cuda, Compare(3, Gt, IntLit(17)), [5, 8])) == [0x00] + ([0x01] + (leaf + columns));
  }

  lemma {:induction false} RecordedPredicate()
    ensures PredicateBytes(Compare(3, Gt, IntLit(17))) == [0x00, 0x03, 0x03, 0x00, 0x22]
  {
    assert LiteralBytes(IntLit(17)) == [0x00, 0x22];
  }

  lemma {:induction false} RecordedColumns()
    ensures Indices([5, 8]) == [0x02, 0x05, 0x08]
  {
    SmallItems([5, 8]);
  }

  /** The recorded bytes of a join. */
  lemma {:induction false} RecordedJoin()
    ensures NodeBytes(HashJoinNode(Metal, 1, 2, Some([4, 6, 9]))) == [0x01, 0x02, 0x01, 0x02, 0x01, 0x03, 0x04, 0x06, 0x09]
  {
    SmallItems([4, 6, 9]);
  }

  lemma {:induction false} OneItem<T>(enc: T -> Bytes, x: T)
    ensures Items(enc, [x]) == enc(x)
  {
    assert [x][1..] == [];
  }

  lemma {:induction false} TwoItems<T>(enc: T -> Bytes, x: T, y: T)
    ensures Items(enc, [x, y]) == enc(x) + enc(y)
  {
    assert [x, y][1..] == [y];
    OneItem(enc, y);
  }

  lemma {:induction false} AsciiText(s: string, b: Bytes)
    requires |s| == |b| < 128 && forall i :: 0 <= i < |s| ==> s[i] as int == b[i] < 128
    ensures Text(s) == [|b|] + b
  {
    Ascii(s, b);
  }

  lemma {:induction false} RecordedOutputs()
    ensures Sequence(OutputBytes, [("k", false), ("sv", true)]) == [0x02, 0x01, 0x6b, 0x00, 0x02, 0x73, 0x76, 0x01]
  {
    AsciiText("k", [0x6b]);
    AsciiText("sv", [0x73, 0x76]);
    TwoItems(OutputBytes, ("k", false), ("sv", true));
  }

  lemma {:induction false} RecordedAggs()
    ensures Sequence(AggBytes, [(Sum, 11)]) == [0x01, 0x00, 0x0b]
  {
    OneItem(AggBytes, (Sum, 11));
  }

  /** The recorded bytes of an aggregate: tags and key, the aggregates, the output fields. */
  lemma {:induction false} RecordedAggregate()
    ensures NodeBytes(AggregateNode(CpuSimd, AggregateSpec(7, [(Sum, 11)]), [("k", false), ("sv", true)]))
         == [0x02, 0x00, 0x07] + ([0x01, 0x00, 0x0b] + [0x02, 0x01, 0x6b, 0x00, 0x02, 0x73, 0x76, 0x01])
  {
    RecordedAggs();
    RecordedOutputs();
    ThreeFirst(2, 0, 7, Sequence(AggBytes, [(Sum, 11)]) + Sequence(OutputBytes, [("k", false), ("sv", true)]));
  }

  lemma {:induction false} ThreeFirst(a: byte, b: byte, c: byte, rest: Bytes)
    requires a < 128 && b < 128 && c < 128
    ensures Varint(a) + (Varint(b) + (Varint(c) + rest)) == [a, b, c] + rest
  {
  }

  /** The recorded bytes of a vector distance, field by field; 0.5 and 0.25 by their bit patterns. */
  lemma {:induction false} RecordedDistance(query: seq<u32>, name: string)
    requires query == [0x3f00_0000, 0x3e80_0000] && name == "dist"
    ensures NodeBytes(DistanceNode(Cuda, 13, query, Cosine, name))
         == [0x03] + ([0x01] + ([0x0d] + ([0x02, 0x00, 0x00, 0x00, 0x3f, 0x00, 0x00, 0x80, 0x3e]
                              + ([0x01] + [0x04, 0x64, 0x69, 0x73, 0x74]))))
  {
    AsciiText(name, [0x64, 0x69, 0x73, 0x74]);
    RecordedQuery(query);
    DistanceFields(query, name, Sequence(F32Bytes, query), Text(name));
    assert [0x04] + [0x64, 0x69, 0x73, 0x74] == [0x04, 0x64, 0x69, 0x73, 0x74];
  }

  lemma {:induction false} DistanceFields(query: seq<u32>, name: string, q: Bytes, t: Bytes)
    requires q == Sequence(F32Bytes, query) && t == Text(name)
    ensures NodeBytes(DistanceNode(Cuda, 13, query, Cosine, name)) == [0x03] + ([0x01] + ([0x0d] + (q + ([0x01] + t))))
  {
  }

  lemma {:induction false} RecordedQuery(query: seq<u32>)
    requires query == [0x3f00_0000, 0x3e80_0000]
    ensures Sequence(F32Bytes, query) == [0x02, 0x00, 0x00, 0x00, 0x3f, 0x00, 0x00, 0x80, 0x3e]
  {
    FourBytes(0x3f00_0000, 0x00, 0x00, 0x00, 0x3f);
    FourBytes(0x3e80_0000, 0x00, 0x00, 0x80, 0x3e);
    TwoItems(F32Bytes, 0x3f00_0000, 0x3e80_0000);
  }

  lemma {:induction false} FourBytes(n: u32, a: byte, b: byte, c: byte, d: byte)
    requires n == a + 256 * b + 65536 * c + 16777216 * d
    ensures F32Bytes(n) == [a, b, c, d]
  {
    assert LittleEndian(d, 1) == [d];
    assert LittleEndian(c + 256 * d, 2) == [c, d];
    assert LittleEndian(b + 256 * c + 65536 * d, 3) == [b, c, d];
  }
}
