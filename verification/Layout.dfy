/**
 The wire format spelled out in bytes. A round trip only says that the two ends
 agree; a plan is read by another build, so here every discriminant, every integer
 form and the header are given as literal bytes, and read back from them.
 */
module Layout {
  import opened Core
  import opened Plans
  import opened Fingerprints
  import opened Postcard
  import opened Codec
  import opened Wire

  // ------------------------------------------------------------------- integers

  /** The number that groups of seven bits stand for, least significant first. */
  function Weight(b: Bytes): nat {
    if b == [] then 0 else b[0] % 128 + 128 * Weight(b[1..])
  }

  /** All bytes but the last carry the continuation bit, and the last is needed. */
  ghost predicate Shortest(b: Bytes) {
    && b != [] && b[|b| - 1] < 128 && (|b| == 1 || b[|b| - 1] != 0)
    && forall i :: 0 <= i < |b| - 1 ==> b[i] >= 128
  }

  lemma {:induction false} VarintShape(n: nat)
    ensures Weight(Varint(n)) == n && Shortest(Varint(n))
  {
    var b := Varint(n);
    if n >= 128 {
      VarintShape(n / 128);
      assert b[1..] == Varint(n / 128);
      assert b[|b| - 1] == b[1..][|b| - 2];
      forall i | 0 <= i < |b| - 1 ensures b[i] >= 128 {
        if i > 0 {
          assert b[i] == b[1..][i - 1];
        }
      }
    }
  }

  lemma {:induction false} Digits(d: nat, w: nat)
    requires d < 128
    ensures (d + 128 * w) % 128 == d && (d + 128 * w) / 128 == w
  {
  }

  lemma {:induction false} TailShortest(b: Bytes)
    requires Shortest(b) && |b| > 1
    ensures Shortest(b[1..]) && b[1..][|b| - 2] != 0
  {
    var t := b[1..];
    assert t[|t| - 1] == b[|b| - 1];
    assert forall i :: 0 <= i < |t| - 1 ==> t[i] == b[i + 1];
  }

  lemma {:induction false} ShortestIsVarint(b: Bytes)
    requires Shortest(b)
    ensures Varint(Weight(b)) == b
    decreases |b|
  {
    if |b| > 1 {
      TailShortest(b);
      Positive(b[1..]);
      ShortestIsVarint(b[1..]);
      Digits(b[0] % 128, Weight(b[1..]));
      assert b == [b[0]] + b[1..];
    } else {
      assert b[1..] == [];
    }
  }

  /** A varint is the one shortest string of seven-bit groups that weighs `n`. */
  lemma {:induction false} VarintIff(b: Bytes, n: nat)
    ensures b == Varint(n) <==> Weight(b) == n && Shortest(b)
  {
    VarintShape(n);
    if Shortest(b) {
      ShortestIsVarint(b);
    }
  }

  lemma {:induction false} Positive(b: Bytes)
    requires Shortest(b) && b[|b| - 1] != 0
    ensures Weight(b) > 0
  {
    if |b| > 1 {
      TailShortest(b);
      Positive(b[1..]);
    }
  }

  lemma {:induction false} VarintLiterals()
    ensures Varint(127) == [0x7f] && Varint(128) == [0x80, 0x01] && Varint(300) == [0xac, 0x02]
  {
    assert Varint(1) == [0x01] && Varint(2) == [0x02];
  }

  /** Signed integers alternate: 0, -1, 1, -2, and so on. */
  lemma {:induction false} ZigzagLiterals()
    ensures Zigzag(0) == 0 && Zigzag(-1) == 1 && Zigzag(1) == 2 && Zigzag(-2) == 3
    ensures Zigzag(I64_MAX) == TWO_64 - 2 && Zigzag(I64_MIN) == TWO_64 - 1
  {
  }

  // ------------------------------------------------------------------------ text

  lemma {:induction false} TextLiterals()
    ensures Utf8Char('k') == [0x6b] && Utf8Char('\U{00e9}') == [0xc3, 0xa9]
    ensures Utf8Char('\U{20ac}') == [0xe2, 0x82, 0xac] && Utf8Char('\U{1f600}') == [0xf0, 0x9f, 0x98, 0x80]
  {
  }

  // ------------------------------------------------------------------ predicates

  lemma {:induction false} Leaf(column: byte, op: Comparison, tag: byte, literal: Literal, value: Bytes)
    requires column < 128 && tag < 128 && OpTag(op) == tag && LiteralBytes(literal) == value
    ensures PredicateBytes(Compare(column, op, literal)) == [0x00, column, tag] + value
  {
  }

  lemma {:induction false} IntegerLiterals()
    ensures LiteralBytes(IntLit(17)) == [0x00, 0x22] && LiteralBytes(IntLit(-17)) == [0x00, 0x21]
    ensures LiteralBytes(IntLit(150)) == [0x00, 0xac, 0x02]
  {
    VarintLiterals();
    assert Varint(34) == [0x22] && Varint(33) == [0x21];
  }

  /** One half, as a 64-bit float. */
  lemma {:induction false} FloatLiteral()
    ensures LiteralBytes(FloatLit(0x3fe0_0000_0000_0000)) == [0x01, 0x00, 0x00, 0x00, 0x00, 0x00, 0x00, 0xe0, 0x3f]
  {
    assert LittleEndian(0x3fe0, 2) == [0xe0, 0x3f];
    ZeroByte(0x3fe0, 2);
    ZeroByte(0x3fe000, 3);
    ZeroByte(0x3fe00000, 4);
    ZeroByte(0x3fe0000000, 5);
    ZeroByte(0x3fe000000000, 6);
    ZeroByte(0x3fe00000000000, 7);
  }

  lemma {:induction false} ZeroByte(n: nat, k: nat)
    ensures LittleEndian(256 * n, k + 1) == [0x00] + LittleEndian(n, k)
  {
  }

  /** Every comparison, in the order the wire numbers them. */
  lemma {:induction false} ComparisonBytes()
    ensures PredicateBytes(Compare(3, Eq, IntLit(17))) == [0x00, 0x03, 0x00] + [0x00, 0x22]
    ensures PredicateBytes(Compare(3, Lt, IntLit(17))) == [0x00, 0x03, 0x01] + [0x00, 0x22]
    ensures PredicateBytes(Compare(3, LtEq, IntLit(17))) == [0x00, 0x03, 0x02] + [0x00, 0x22]
    ensures PredicateBytes(Compare(3, Gt, IntLit(17))) == [0x00, 0x03, 0x03] + [0x00, 0x22]
    ensures PredicateBytes(Compare(3, GtEq, IntLit(17))) == [0x00, 0x03, 0x04] + [0x00, 0x22]
  {
    IntegerLiterals();
    Leaf(3, Eq, 0, IntLit(17), [0x00, 0x22]);
    Leaf(3, Lt, 1, IntLit(17), [0x00, 0x22]);
    Leaf(3, LtEq, 2, IntLit(17), [0x00, 0x22]);
    Leaf(3, Gt, 3, IntLit(17), [0x00, 0x22]);
    Leaf(3, GtEq, 4, IntLit(17), [0x00, 0x22]);
  }

  lemma {:induction false} ConjunctionBytes(l: Predicate, r: Predicate)
    ensures PredicateBytes(And(l, r)) == [0x01] + (PredicateBytes(l) + PredicateBytes(r))
  {
  }

  /** Bytes written by another build read as the comparison they mean. */
  lemma {:induction false} ComparisonReads(op: Comparison, tag: byte, rest: Bytes)
    requires (tag, op) in [(0, Eq), (1, Lt), (2, LtEq), (3, Gt), (4, GtEq)]
    ensures TakePredicate([0x00, 0x03, tag] + [0x00, 0x22] + rest) == Some((Compare(3, op, IntLit(17)), rest))
  {
    ComparisonBytes();
    PredicateTrip(Compare(3, op, IntLit(17)), rest);
  }

  // -------------------------------------------------------------- other variants

  /** Every backend; a join without a projection. */
  lemma {:induction false} BackendBytes()
    ensures NodeBytes(HashJoinNode(CpuSimd, 1, 2, None)) == [0x01, 0x00, 0x01, 0x02, 0x00]
    ensures NodeBytes(HashJoinNode(Cuda, 1, 2, None)) == [0x01, 0x01, 0x01, 0x02, 0x00]
    ensures NodeBytes(HashJoinNode(Metal, 1, 2, None)) == [0x01, 0x02, 0x01, 0x02, 0x00]
  {
  }

  lemma {:induction false} BackendReads(t: BackendKind, tag: byte)
    requires (tag, t) in [(0, CpuSimd), (1, Cuda), (2, Metal)]
    ensures TakeNode([0x01, tag, 0x01, 0x02, 0x00]) == Some((HashJoinNode(t, 1, 2, None), []))
  {
    BackendBytes();
    Reads(HashJoinNode(t, 1, 2, None), [0x01, tag, 0x01, 0x02, 0x00]);
  }

  /** Written bytes read back, with nothing left over. */
  lemma {:induction false} Reads(n: GpuNode, b: Bytes)
    requires WireNode(n) && NodeBytes(n) == b
    ensures TakeNode(b) == Some((n, []))
  {
    NodeTrip(n, []);
    assert b + [] == b;
  }

  /** Every aggregate function. */
  lemma {:induction false} FunctionBytes()
    ensures AggBytes((Sum, 11)) == [0x00, 0x0b] && AggBytes((Count, 11)) == [0x01, 0x0b]
    ensures AggBytes((Min, 11)) == [0x02, 0x0b] && AggBytes((Max, 11)) == [0x03, 0x0b]
  {
  }

  lemma {:induction false} FunctionReads(f: AggFn, tag: byte, rest: Bytes)
    requires (tag, f) in [(0, Sum), (1, Count), (2, Min), (3, Max)]
    ensures TakeAgg([tag, 0x0b] + rest) == Some(((f, 11), rest))
  {
    FunctionBytes();
    AggTrip((f, 11), rest);
  }

  /** Every metric; an empty query and name. */
  lemma {:induction false} MetricBytes()
    ensures NodeBytes(DistanceNode(Cuda, 13, [], L2, "")) == [0x03, 0x01, 0x0d, 0x00, 0x00, 0x00]
    ensures NodeBytes(DistanceNode(Cuda, 13, [], Cosine, "")) == [0x03, 0x01, 0x0d, 0x00, 0x01, 0x00]
  {
    assert Sequence(F32Bytes, []) == [0x00];
    assert Text("") == [0x00];
  }

  lemma {:induction false} MetricReads(m: DistanceMetric, tag: byte)
    requires (tag, m) in [(0, L2), (1, Cosine)]
    ensures TakeNode([0x03, 0x01, 0x0d, 0x00, tag, 0x00]) == Some((DistanceNode(Cuda, 13, [], m, ""), []))
  {
    MetricBytes();
    Reads(DistanceNode(Cuda, 13, [], m, ""), [0x03, 0x01, 0x0d, 0x00, tag, 0x00]);
  }

  lemma {:induction false} SmallWire(xs: seq<nat>)
    requires |xs| < 128 && forall i :: 0 <= i < |xs| ==> xs[i] < 128
    ensures WireIndices(xs)
  {
  }

  /** The recorded filter, read. */
  lemma {:induction false} FilterReads()
    ensures TakeNode([0x00, 0x01, 0x00, 0x03, 0x03, 0x00, 0x22, 0x02, 0x05, 0x08])
         == Some((FilterNode(Cuda, Compare(3, Gt, IntLit(17)), [5, 8]), []))
  {
    RecordedFilter();
    SmallWire([5, 8]);
    var n := FilterNode(Cuda, Compare(3, Gt, IntLit(17)), [5, 8]);
    assert WireNode(n);
    Reads(n, NodeBytes(n));
  }

  /** The recorded join, read. */
  lemma {:induction false} JoinReads()
    ensures TakeNode([0x01, 0x02, 0x01, 0x02, 0x01, 0x03, 0x04, 0x06, 0x09])
         == Some((HashJoinNode(Metal, 1, 2, Some([4, 6, 9])), []))
  {
    RecordedJoin();
    SmallWire([4, 6, 9]);
    var n := HashJoinNode(Metal, 1, 2, Some([4, 6, 9]));
    assert WireNode(n);
    Reads(n, NodeBytes(n));
  }

  lemma {:induction false} TakeSmall(tag: byte, rest: Bytes)
    requires tag < 128
    ensures TakeU32([tag] + rest) == Some((tag, rest)) && TakeU64([tag] + rest) == Some((tag, rest))
  {
    assert ([tag] + rest)[1..] == rest;
  }

  /** Discriminants that no variant has are refused. */
  lemma {:induction false} UnknownRefused(tag: byte, rest: Bytes)
    requires tag < 128
    ensures tag > 3 ==> TakeNode([tag] + rest) == None && TakeVariant(FNS, [tag] + rest) == None
    ensures tag > 4 ==> TakeVariant(OPS, [tag] + rest) == None
    ensures tag > 2 ==> TakeVariant(BACKENDS, [tag] + rest) == None
    ensures tag > 1 ==> TakeVariant(METRICS, [tag] + rest) == None && TakePredicate([tag] + rest) == None
    ensures tag > 1 ==> TakeLiteral([tag] + rest) == None
  {
    TakeSmall(tag, rest);
  }

  // ------------------------------------------------------------------ the header

  /** `OXGP`, the payload version, and the fingerprint, least significant byte first. */
  lemma {:induction false} HeaderBytes(n: GpuNode)
    ensures Frame(n, 0x1234_5678) == [0x4f, 0x58, 0x47, 0x50, 0x02, 0x78, 0x56, 0x34, 0x12] + NodeBytes(n)
  {
    Wire.FourBytes(0x1234_5678, 0x78, 0x56, 0x34, 0x12);
    assert LittleEndian(0x1234_5678, 4) == [0x78, 0x56, 0x34, 0x12];
    assert MAGIC + [VERSION] == [0x4f, 0x58, 0x47, 0x50, 0x02];
    assert MAGIC + [VERSION] + LittleEndian(0x1234_5678, 4) == [0x4f, 0x58, 0x47, 0x50, 0x02, 0x78, 0x56, 0x34, 0x12];
  }

  /** What becomes of any buffer: another codec's, refused, or read. */
  lemma {:induction false} DecodeOutcome(buf: Bytes, inputs: seq<Plan>, ours: u32)
    ensures TryDecode(buf, inputs, ours).Delegated? <==> |buf| <= 9 || buf[..4] != [0x4f, 0x58, 0x47, 0x50]
    ensures var got := TryDecode(buf, inputs, ours);
            got.Ours? && got.result.Ok? ==>
              buf[4] == 2 && FromLittleEndian(buf[5..9]) == ours && TakeNode(buf[9..]).Some?
    ensures var got := TryDecode(buf, inputs, ours);
            got.Ours? && buf[4] == 2 && FromLittleEndian(buf[5..9]) == ours && TakeNode(buf[9..]).Some? ==>
              got.result == Build(TakeNode(buf[9..]).value.0, inputs)
  {
  }

  /** When a vector distance is rebuilt: its column is a vector column as long as the query, and not empty. */
  lemma {:induction false} DistanceBuilds(t: BackendKind, column: nat, query: seq<u32>, m: DistanceMetric,
                                          name: string, input: Plan)
    ensures var s := SchemaOf(input);
            Build(DistanceNode(t, column, query, m, name), [input])
            == if column < |s| && query != [] && s[column].dtype == FixedSizeList(|query|)
               then Ok(GpuVectorDistance(column, query, m, name, t, input)) else Err(PlanError)
  {
  }
}
