/**
 The postcard wire format: varints, zigzag integers, little-endian floats, tagged
 options, counted sequences and UTF-8 strings. A decoder takes what it needs from
 the front and hands back the rest.
 */
module Postcard {
  import opened Core

  type Bytes = seq<byte>
  type Parsed<T> = Option<(T, Bytes)>

  // -------------------------------------------------------------------- varints

  function Varint(n: nat): (b: Bytes)
    ensures |b| > 0
  {
    if n < 128 then [n] else [n % 128 + 128] + Varint(n / 128)
  }

  /** Byte `i` of at most `max`; the last may not exceed `top`. */
  function TakeVarint(b: Bytes, i: nat, max: nat, top: nat): (r: Parsed<nat>)
    requires i < max
    ensures r.Some? ==> |r.value.1| < |b|
    decreases max - i
  {
    if b == [] then None
    else if b[0] < 128 then (if i == max - 1 && b[0] > top then None else Some((b[0], b[1..])))
    else if i == max - 1 then None
    else
      match TakeVarint(b[1..], i + 1, max, top)
      case None => None
      case Some((n, rest)) => Some((b[0] - 128 + 128 * n, rest))
  }

  /** The values that fit bytes `i..max` of a varint whose last byte is at most `top`. */
  function Room(i: nat, max: nat, top: nat): nat
    requires i < max
    decreases max - i
  {
    if i == max - 1 then top + 1 else 128 * Room(i + 1, max, top)
  }

  lemma {:induction false} VarintTrip(n: nat, rest: Bytes, i: nat, max: nat, top: nat)
    requires i < max && top < 128 && n < Room(i, max, top)
    ensures TakeVarint(Varint(n) + rest, i, max, top) == Some((n, rest))
    decreases max - i
  {
    var b := Varint(n) + rest;
    if n < 128 {
      assert b == [n] + rest && b[1..] == rest;
    } else {
      assert i < max - 1;
      VarintTrip(n / 128, rest, i + 1, max, top);
      assert b == [n % 128 + 128] + (Varint(n / 128) + rest);
      assert b[1..] == Varint(n / 128) + rest;
    }
  }

  /** Whatever a varint decodes to fits its width. */
  lemma {:induction false} VarintFits(b: Bytes, i: nat, max: nat, top: nat)
    requires i < max && top < 128
    ensures TakeVarint(b, i, max, top).Some? ==> TakeVarint(b, i, max, top).value.0 < Room(i, max, top)
    decreases max - i
  {
    RoomGrows(i, max, top);
    if b != [] && b[0] >= 128 && i < max - 1 {
      VarintFits(b[1..], i + 1, max, top);
    }
  }

  lemma {:induction false} RoomGrows(i: nat, max: nat, top: nat)
    requires i < max
    ensures Room(i, max, top) > 0 && (i < max - 1 ==> Room(i, max, top) >= 128)
    decreases max - i
  {
    if i < max - 1 {
      RoomGrows(i + 1, max, top);
    }
  }

  lemma {:induction false} Rooms()
    ensures Room(0, 10, 1) == TWO_64 && Room(0, 5, 15) == TWO_32
  {
    assert Room(5, 10, 1) == 128 * 128 * 128 * 128 * 2;
    assert Room(2, 5, 15) == 128 * 128 * 16;
  }

  /** A 64-bit length, index or count. */
  function TakeU64(b: Bytes): (r: Parsed<nat>)
    ensures r.Some? ==> |r.value.1| < |b|
  {
    TakeVarint(b, 0, 10, 1)
  }

  /** An enum discriminant. */
  function TakeU32(b: Bytes): (r: Parsed<nat>)
    ensures r.Some? ==> |r.value.1| < |b|
  {
    TakeVarint(b, 0, 5, 15)
  }

  lemma {:induction false} U64Trip(n: nat, rest: Bytes)
    requires n < TWO_64
    ensures TakeU64(Varint(n) + rest) == Some((n, rest))
  {
    Rooms();
    VarintTrip(n, rest, 0, 10, 1);
  }

  lemma {:induction false} U32Trip(n: nat, rest: Bytes)
    requires n < TWO_32
    ensures TakeU32(Varint(n) + rest) == Some((n, rest))
  {
    Rooms();
    VarintTrip(n, rest, 0, 5, 15);
  }

  // -------------------------------------------------------------- signed, floats

  function Zigzag(x: i64): (n: nat)
    ensures n < TWO_64
  {
    if x >= 0 then 2 * x else -2 * x - 1
  }

  function Unzigzag(n: nat): int {
    if n % 2 == 0 then n / 2 else -((n + 1) / 2)
  }

  lemma {:induction false} ZigzagTrip(x: i64)
    ensures Unzigzag(Zigzag(x)) == x
  {
  }

  function TakeI64(b: Bytes): (r: Parsed<i64>)
    ensures r.Some? ==> |r.value.1| < |b|
  {
    match TakeU64(b)
    case None => None
    case Some((n, rest)) =>
      Rooms();
      VarintFits(b, 0, 10, 1);
      Some((Unzigzag(n), rest))
  }

  lemma {:induction false} I64Trip(x: i64, rest: Bytes)
    ensures TakeI64(Varint(Zigzag(x)) + rest) == Some((x, rest))
  {
    U64Trip(Zigzag(x), rest);
    ZigzagTrip(x);
  }

  /** `k` bytes, least significant first. */
  function LittleEndian(n: nat, k: nat): (b: Bytes)
    ensures |b| == k
  {
    if k == 0 then [] else [n % 256] + LittleEndian(n / 256, k - 1)
  }

  function FromLittleEndian(b: Bytes): nat {
    if b == [] then 0 else b[0] + 256 * FromLittleEndian(b[1..])
  }

  function Power256(k: nat): nat {
    if k == 0 then 1 else 256 * Power256(k - 1)
  }

  lemma {:induction false} Powers()
    ensures Power256(4) == TWO_32 && Power256(8) == TWO_64
  {
    assert Power256(4) == TWO_32;
  }

  lemma {:induction false} EndianTrip(n: nat, k: nat)
    requires n < Power256(k)
    ensures FromLittleEndian(LittleEndian(n, k)) == n
  {
    if k > 0 {
      EndianTrip(n / 256, k - 1);
      assert LittleEndian(n, k)[1..] == LittleEndian(n / 256, k - 1);
    }
  }

  lemma {:induction false} EndianBound(b: Bytes)
    ensures FromLittleEndian(b) < Power256(|b|)
  {
    if b != [] {
      EndianBound(b[1..]);
    }
  }

  function TakeFixed(b: Bytes, k: nat): (r: Parsed<nat>)
    ensures r.Some? && k > 0 ==> |r.value.1| < |b|
  {
    if |b| < k then None else Some((FromLittleEndian(b[..k]), b[k..]))
  }

  lemma {:induction false} FixedTrip(n: nat, k: nat, rest: Bytes)
    requires n < Power256(k)
    ensures TakeFixed(LittleEndian(n, k) + rest, k) == Some((n, rest))
  {
    EndianTrip(n, k);
    var b := LittleEndian(n, k) + rest;
    assert b[..k] == LittleEndian(n, k) && b[k..] == rest;
  }

  function TakeF64(b: Bytes): (r: Parsed<u64>)
    ensures r.Some? ==> |r.value.1| < |b|
  {
    match TakeFixed(b, 8)
    case None => None
    case Some((n, rest)) =>
      Powers();
      EndianBound(b[..8]);
      Some((n, rest))
  }

  function TakeF32(b: Bytes): (r: Parsed<u32>)
    ensures r.Some? ==> |r.value.1| < |b|
  {
    match TakeFixed(b, 4)
    case None => None
    case Some((n, rest)) =>
      Powers();
      EndianBound(b[..4]);
      Some((n, rest))
  }

  // ----------------------------------------------------------------- small things

  function Flag(x: bool): Bytes {
    if x then [1] else [0]
  }

  function TakeBool(b: Bytes): (r: Parsed<bool>)
    ensures r.Some? ==> |r.value.1| < |b|
  {
    if b == [] || b[0] > 1 then None else Some((b[0] == 1, b[1..]))
  }

  lemma {:induction false} BoolTrip(x: bool, rest: Bytes)
    ensures TakeBool(Flag(x) + rest) == Some((x, rest))
  {
    assert (Flag(x) + rest)[1..] == rest;
  }

  // -------------------------------------------------------------------- sequences

  function Items<T>(enc: T -> Bytes, xs: seq<T>): Bytes {
    if xs == [] then [] else enc(xs[0]) + Items(enc, xs[1..])
  }

  /** A counted sequence. */
  function Sequence<T>(enc: T -> Bytes, xs: seq<T>): Bytes {
    Varint(|xs|) + Items(enc, xs)
  }

  function TakeItems<T>(dec: Bytes -> Parsed<T>, n: nat, b: Bytes): Parsed<seq<T>> {
    if n == 0 then Some(([], b))
    else
      match dec(b)
      case None => None
      case Some((x, rest)) =>
        match TakeItems(dec, n - 1, rest)
        case None => None
        case Some((xs, last)) => Some(([x] + xs, last))
  }

  function TakeSequence<T>(dec: Bytes -> Parsed<T>, b: Bytes): Parsed<seq<T>> {
    match TakeU64(b)
    case None => None
    case Some((n, rest)) => TakeItems(dec, n, rest)
  }

  /** `dec` undoes `enc` on this item, whatever follows. */
  ghost predicate Undoes<T>(enc: T -> Bytes, dec: Bytes -> Parsed<T>, x: T) {
    forall rest: Bytes :: UndoesBefore(enc, dec, x, rest)
  }

  ghost predicate UndoesBefore<T>(enc: T -> Bytes, dec: Bytes -> Parsed<T>, x: T, rest: Bytes) {
    dec(enc(x) + rest) == Some((x, rest))
  }

  lemma {:induction false} ItemsTrip<T>(enc: T -> Bytes, dec: Bytes -> Parsed<T>, xs: seq<T>, rest: Bytes)
    requires forall x :: x in xs ==> Undoes(enc, dec, x)
    ensures TakeItems(dec, |xs|, Items(enc, xs) + rest) == Some((xs, rest))
  {
    if xs == [] {
      assert Items(enc, xs) + rest == rest;
    } else {
      ItemsTrip(enc, dec, xs[1..], rest);
      var tail := Items(enc, xs[1..]) + rest;
      assert Undoes(enc, dec, xs[0]) && UndoesBefore(enc, dec, xs[0], tail);
      assert Items(enc, xs) + rest == enc(xs[0]) + tail;
      assert [xs[0]] + xs[1..] == xs;
    }
  }

  lemma {:induction false} SequenceTrip<T>(enc: T -> Bytes, dec: Bytes -> Parsed<T>, xs: seq<T>, rest: Bytes)
    requires |xs| < TWO_64 && forall x :: x in xs ==> Undoes(enc, dec, x)
    ensures TakeSequence(dec, Sequence(enc, xs) + rest) == Some((xs, rest))
  {
    U64Trip(|xs|, Items(enc, xs) + rest);
    assert Sequence(enc, xs) + rest == Varint(|xs|) + (Items(enc, xs) + rest);
    ItemsTrip(enc, dec, xs, rest);
  }

  // ---------------------------------------------------------------------- strings

  /** One Unicode scalar value in UTF-8. */
  function Utf8Char(c: char): (b: Bytes)
    ensures 1 <= |b| <= 4
  {
    var n := c as int;
    if n < 0x80 then [n]
    else if n < 0x800 then [0xC0 + n / 64, 0x80 + n % 64]
    else if n < 0x1_0000 then [0xE0 + n / 4096, 0x80 + n / 64 % 64, 0x80 + n % 64]
    else [0xF0 + n / 262144, 0x80 + n / 4096 % 64, 0x80 + n / 64 % 64, 0x80 + n % 64]
  }

  function ToUtf8(s: string): Bytes {
    if s == [] then [] else Utf8Char(s[0]) + ToUtf8(s[1..])
  }

  /** The low six bits of continuation byte `i`. */
  function Continued(b: Bytes, i: nat): Option<nat> {
    if i < |b| && 0x80 <= b[i] < 0xC0 then Some(b[i] - 0x80) else None
  }

  /** A scalar value that needs at least `least` and is no surrogate. */
  function Scalar(n: nat, least: nat): Option<char> {
    if n < least || 0xD800 <= n < 0xE000 || n >= 0x11_0000 then None else Some(n as char)
  }

  /** The first character of well-formed UTF-8 and its width. Overlong forms and surrogates are refused. */
  function TakeChar(b: Bytes): (r: Option<(char, nat)>)
    requires b != []
    ensures r.Some? ==> 1 <= r.value.1 <= |b|
  {
    var lead: int := b[0];
    var (c1, c2, c3) := (Continued(b, 1), Continued(b, 2), Continued(b, 3));
    if lead < 0x80 then WithWidth(Scalar(lead, 0), 1, b)
    else if 0xC0 <= lead < 0xE0 && c1.Some? then WithWidth(Scalar((lead - 0xC0) * 64 + c1.value, 0x80), 2, b)
    else if 0xE0 <= lead < 0xF0 && c1.Some? && c2.Some? then WithWidth(Scalar((lead - 0xE0) * 4096 + c1.value * 64 + c2.value, 0x800), 3, b)
    else if 0xF0 <= lead < 0xF8 && c1.Some? && c2.Some? && c3.Some? then
      WithWidth(Scalar((lead - 0xF0) * 262144 + c1.value * 4096 + c2.value * 64 + c3.value, 0x1_0000), 4, b)
    else None
  }

  function WithWidth(c: Option<char>, width: nat, b: Bytes): Option<(char, nat)> {
    if c.Some? && width <= |b| then Some((c.value, width)) else None
  }

  function FromUtf8(b: Bytes): Option<string> {
    if b == [] then Some([])
    else
      match TakeChar(b)
      case None => None
      case Some((c, width)) =>
        match FromUtf8(b[width..])
        case None => None
        case Some(s) => Some([c] + s)
  }

  lemma {:induction false} CharTrip(c: char, rest: Bytes)
    ensures TakeChar(Utf8Char(c) + rest) == Some((c, |Utf8Char(c)|))
  {
    var n := c as int;
    var b := Utf8Char(c) + rest;
    if n < 0x80 {
    } else if n < 0x800 {
      TwoBytes(n);
    } else if n < 0x1_0000 {
      ThreeBytes(n);
    } else {
      FourBytes(n);
    }
  }

  lemma {:induction false} TwoBytes(n: nat)
    ensures n / 64 * 64 + n % 64 == n
  {
  }

  lemma {:induction false} ThreeBytes(n: nat)
    ensures n / 4096 * 4096 + n / 64 % 64 * 64 + n % 64 == n
  {
    assert n / 4096 == n / 64 / 64;
  }

  lemma {:induction false} FourBytes(n: nat)
    ensures n / 262144 * 262144 + n / 4096 % 64 * 4096 + n / 64 % 64 * 64 + n % 64 == n
  {
    ThreeBytes(n);
    assert n / 262144 == n / 4096 / 64;
  }

  lemma {:induction false} Utf8Trip(s: string)
    ensures FromUtf8(ToUtf8(s)) == Some(s)
  {
    if s != [] {
      Utf8Trip(s[1..]);
      CharTrip(s[0], ToUtf8(s[1..]));
      assert ToUtf8(s)[|Utf8Char(s[0])|..] == ToUtf8(s[1..]);
      assert [s[0]] + s[1..] == s;
    }
  }

  /** A counted UTF-8 string. */
  function Text(s: string): Bytes {
    Varint(|ToUtf8(s)|) + ToUtf8(s)
  }

  function TakeText(b: Bytes): Parsed<string> {
    match TakeU64(b)
    case None => None
    case Some((n, rest)) =>
      if n > |rest| then None
      else
        match FromUtf8(rest[..n])
        case None => None
        case Some(s) => Some((s, rest[n..]))
  }

  lemma {:induction false} TextTrip(s: string, rest: Bytes)
    requires |ToUtf8(s)| < TWO_64
    ensures TakeText(Text(s) + rest) == Some((s, rest))
  {
    U64Trip(|ToUtf8(s)|, ToUtf8(s) + rest);
    assert Text(s) + rest == Varint(|ToUtf8(s)|) + (ToUtf8(s) + rest);
    assert (ToUtf8(s) + rest)[..|ToUtf8(s)|] == ToUtf8(s) && (ToUtf8(s) + rest)[|ToUtf8(s)|..] == rest;
    Utf8Trip(s);
  }
}
