/**
 Vocabulary shared by every component: machine integers, column types, cell
 values, and the operator parameters that the planner lowers into, the codec
 ships and the kernels execute.
 */
module Core {

  datatype Option<+T> = None | Some(value: T)

  /** The error classes a caller can tell apart. */
  datatype EngineError = PlanError | UnsupportedError | ExecutionError

  datatype Result<+T> = Ok(value: T) | Err(error: EngineError) {
    predicate IsFailure() {
      Err?
    }

    function PropagateFailure<U>(): Result<U>
      requires Err?
    {
      Err(error)
    }

    function Extract(): T
      requires Ok?
    {
      value
    }
  }

  // ------------------------------------------------------------ integers

  const I64_MIN: int := -0x8000_0000_0000_0000
  const I64_MAX: int := 0x7fff_ffff_ffff_ffff
  const U32_MAX: int := 0xffff_ffff
  const TWO_32: int := 0x1_0000_0000
  const TWO_63: int := 0x8000_0000_0000_0000
  const TWO_64: int := 0x1_0000_0000_0000_0000

  type i64 = x: int | I64_MIN <= x <= I64_MAX
  type u64 = x: int | 0 <= x < TWO_64
  type u32 = x: int | 0 <= x < TWO_32
  type byte = x: int | 0 <= x < 256

  /** 64-bit addition with two's complement wrap-around. */
  function AddWrap(x: i64, y: i64): (r: i64)
    ensures FitsI64(x + y) ==> r == x + y
  {
    if x + y > I64_MAX then x + y - TWO_64
    else if x + y < I64_MIN then x + y + TWO_64
    else x + y
  }

  predicate FitsI64(x: int) {
    I64_MIN <= x <= I64_MAX
  }

  // -------------------------------------------------------- types, values

  datatype BackendKind = CpuSimd | Cuda | Metal {
    predicate IsGpu() {
      !CpuSimd?
    }
  }

  datatype DataType =
    | Int64
    | Float64
    | Float32
    | Utf8
    | Boolean
    | FixedSizeList(dim: nat)  // of Float32
    | OtherType(tag: nat)

  /** A field without its metadata. */
  datatype Field = Field(name: string, dtype: DataType, nullable: bool)

  type Schema = seq<Field>

  /** A cell. Floats are their bit patterns. */
  datatype Value =
    | Null
    | I64(i: i64)
    | F64(f: u64)
    | F32(g: u32)
    | Str(s: string)
    | Bool(b: bool)
    | Vec(v: seq<u32>)
    | Blob(tag: nat, id: int)

  type Row = seq<Value>

  /** Does `v` belong to a column of type `t`? `NULL` belongs to every column. */
  predicate HasType(v: Value, t: DataType) {
    match v
    case Null => true
    case I64(_) => t.Int64?
    case F64(_) => t.Float64?
    case F32(_) => t.Float32?
    case Str(_) => t.Utf8?
    case Bool(_) => t.Boolean?
    case Vec(v) => t == FixedSizeList(|v|)
    case Blob(tag, _) => t == OtherType(tag)
  }

  /** Cell `i` of a row; cells past the end read as `NULL`. */
  function At(row: Row, i: nat): Value {
    if i < |row| then row[i] else Null
  }

  /** The cells of `row` at `cols`, in that order. */
  function Pick(row: Row, cols: seq<nat>): (r: Row)
    ensures |r| == |cols|
    ensures forall j :: 0 <= j < |cols| ==> r[j] == At(row, cols[j])
  {
    seq(|cols|, j requires 0 <= j < |cols| => At(row, cols[j]))
  }

  /** `0, 1, …, n-1`. */
  function Upto(n: nat): (s: seq<nat>)
    ensures |s| == n
    ensures forall i :: 0 <= i < n ==> s[i] == i
  {
    seq(n, i requires 0 <= i < n => i)
  }

  /** Where `c` first occurs. */
  function FirstIndex(p: seq<nat>, c: nat): (r: Option<nat>)
    ensures r.Some? ==> r.value < |p| && p[r.value] == c
    ensures r.None? <==> c !in p
  {
    if p == [] then None
    else if p[0] == c then Some(0)
    else match FirstIndex(p[1..], c)
      case None => None
      case Some(k) => Some(k + 1)
  }

  lemma {:induction false} PickAll(row: Row, n: nat)
    requires |row| == n
    ensures Pick(row, Upto(n)) == row
  {
  }

  // ------------------------------------------------------------ predicates

  datatype Comparison = Eq | Lt | LtEq | Gt | GtEq

  datatype Literal = IntLit(i: i64) | FloatLit(f: u64) {
    function Type(): DataType {
      if IntLit? then Int64 else Float64
    }

    function AsValue(): Value {
      match this
      case IntLit(i) => I64(i)
      case FloatLit(f) => F64(f)
    }
  }

  datatype Predicate =
    | Compare(column: nat, op: Comparison, literal: Literal)
    | And(left: Predicate, right: Predicate)
  {
    /** The column of each leaf, left to right. */
    function Columns(): seq<nat> {
      match this
      case Compare(c, _, _) => [c]
      case And(l, r) => l.Columns() + r.Columns()
    }

    function LeafCount(): nat {
      match this
      case Compare(_, _, _) => 1
      case And(l, r) => l.LeafCount() + r.LeafCount()
    }
  }

  /**
   IEEE 754 totalOrder on bit patterns, the order Arrow's comparison kernels
   use: negative patterns descend, `-0 < +0`, NaNs sit at the two ends.
   */
  function FloatRank(bits: u64): int {
    if bits < TWO_63 then bits else -(bits - TWO_63) - 1
  }

  function Rank(v: Value): Option<int> {
    match v
    case I64(i) => Some(i)
    case F64(f) => Some(FloatRank(f))
    case _ => None
  }

  predicate Holds(op: Comparison, x: int, y: int) {
    match op
    case Eq => x == y
    case Lt => x < y
    case LtEq => x <= y
    case Gt => x > y
    case GtEq => x >= y
  }

  /** SQL comparison; `None` is the unknown truth value. */
  function CompareValues(op: Comparison, a: Value, b: Value): Option<bool> {
    match (Rank(a), Rank(b))
    case (Some(x), Some(y)) => Some(Holds(op, x, y))
    case _ => None
  }

  /** Kleene conjunction. */
  function KleeneAnd(a: Option<bool>, b: Option<bool>): Option<bool> {
    if a == Some(false) || b == Some(false) then Some(false)
    else if a == None || b == None then None
    else Some(true)
  }

  function EvalPredicate(p: Predicate, row: Row): Option<bool> {
    match p
    case Compare(c, op, lit) => CompareValues(op, At(row, c), lit.AsValue())
    case And(l, r) => KleeneAnd(EvalPredicate(l, row), EvalPredicate(r, row))
  }

  // ------------------------------------------------------------ aggregates

  datatype AggFn = Sum | Count | Min | Max

  datatype AggregateSpec = AggregateSpec(groupBy: nat, aggregates: seq<(AggFn, nat)>)

  datatype DistanceMetric = L2 | Cosine
}
