/**
 The build fingerprint in a plan's header: FNV-1a over the crate version, the payload
 version and the feature mask. Each step of the hash loses nothing and spreads a
 changed byte past its neighbour, so a difference within two adjacent bytes always
 shows; differences further apart may cancel.
 */
module Fingerprints {
  import opened Core
  import opened Postcard

  const PRIME: nat := 0x0100_0193
  const OFFSET: u32 := 0x811c_9dc5
  const VERSION: byte := 2

  /** `PRIME * INVERSE == 1 + WRAPS * 2^32`. */
  const INVERSE: nat := 0x359c_449b
  const WRAPS: nat := 3513497

  // ------------------------------------------------------------------------- xor

  function ToBits(a: byte): bv8 {
    a as bv8
  }

  function FromBits(x: bv8): byte {
    x as int
  }

  function XorBits(x: bv8, y: bv8): bv8 {
    x ^ y
  }

  /** Bitwise exclusive or. */
  function Xor(a: byte, b: byte): byte {
    FromBits(XorBits(ToBits(a), ToBits(b)))
  }

  lemma {:induction false} ThereAndBack(a: byte)
    ensures FromBits(ToBits(a)) == a
  {
    assert a % 256 == a;
  }

  lemma {:induction false} BackAndThere(x: bv8)
    ensures ToBits(FromBits(x)) == x
  {
  }

  lemma {:induction false} XorTwice(x: bv8, y: bv8)
    ensures XorBits(XorBits(x, y), y) == x && XorBits(x, y) == XorBits(y, x)
  {
  }

  /** Of two operands, neither can change alone without changing the outcome. */
  ghost predicate Cancels(xor: (byte, byte) -> byte) {
    forall a, b, a', b' :: xor(a, b) == xor(a', b') ==> (a == a' <==> b == b')
  }

  lemma {:induction false} CancelsVia(xor: (byte, byte) -> byte, bits: (bv8, bv8) -> bv8, there: byte -> bv8,
                                      back: bv8 -> byte)
    requires forall a, b :: xor(a, b) == back(bits(there(a), there(b)))
    requires forall a :: back(there(a)) == a
    requires forall x :: there(back(x)) == x
    requires forall x, y :: bits(bits(x, y), y) == x
    requires forall x, y :: bits(x, y) == bits(y, x)
    ensures Cancels(xor)
  {
    forall a, b, a', b' | xor(a, b) == xor(a', b') ensures a == a' <==> b == b' {
      var (x, y, x', y') := (there(a), there(b), there(a'), there(b'));
      assert back(x) == a && back(y) == b && back(x') == a' && back(y') == b';
      assert there(back(bits(x, y))) == there(back(bits(x', y')));
      assert bits(bits(x, y), y) == x && bits(bits(x', y'), y') == x';
      assert bits(bits(y, x), x) == y && bits(bits(y', x'), x') == y';
    }
  }

  lemma {:induction false} XorCancels()
    ensures Cancels(Xor)
  {
    forall a ensures FromBits(ToBits(a)) == a {
      ThereAndBack(a);
    }
    forall x ensures ToBits(FromBits(x)) == x {
      BackAndThere(x);
    }
    forall x, y ensures XorBits(XorBits(x, y), y) == x && XorBits(x, y) == XorBits(y, x) {
      XorTwice(x, y);
    }
    CancelsVia(Xor, XorBits, ToBits, FromBits);
  }

  // ----------------------------------------------------------------------- hashing

  /** Applies an operation on bytes to the low byte of a word. */
  function LowByteBy(xor: (byte, byte) -> byte, h: u32, b: byte): (r: u32)
    ensures r / 256 == h / 256 && r % 256 == xor(h % 256, b)
  {
    h / 256 * 256 + xor(h % 256, b)
  }

  /** Mixes one byte in: exclusive or, then a wrapping multiply. */
  function Mix(h: u32, b: byte): u32 {
    LowByteBy(Xor, h, b) * PRIME % TWO_32
  }

  /** Feeds bytes to a mixing step. */
  function Run(mix: (u32, byte) -> u32, h: u32, bytes: Bytes): u32
    decreases bytes
  {
    if bytes == [] then h else Run(mix, mix(h, bytes[0]), bytes[1..])
  }

  /** FNV-1a. */
  function Fnv(h: u32, bytes: Bytes): u32 {
    Run(Mix, h, bytes)
  }

  method Fnv1a(h: u32, bytes: Bytes) returns (hash: u32)
    ensures hash == Fnv(h, bytes)
  {
    hash := h;
    var i := 0;
    while i < |bytes|
      invariant 0 <= i <= |bytes| && Fnv(hash, bytes[i..]) == Fnv(h, bytes)
    {
      hash := Mix(hash, bytes[i]);
      i := i + 1;
    }
  }

  // --------------------------------------------------------------------- injectivity

  /** Multiplying by the prime loses nothing: it has an inverse modulo 2^32. */
  lemma {:induction false} TimesPrime(x: nat, y: nat)
    requires x < TWO_32 && y < TWO_32 && x * PRIME % TWO_32 == y * PRIME % TWO_32
    ensures x == y
  {
    var q := x * PRIME / TWO_32 - y * PRIME / TWO_32;
    assert (x - y) * PRIME == q * TWO_32;
    assert PRIME * INVERSE == 1 + WRAPS * TWO_32;
    calc {
      x - y;
      (x - y) * (PRIME * INVERSE) - (x - y) * WRAPS * TWO_32;
      q * TWO_32 * INVERSE - (x - y) * WRAPS * TWO_32;
      (q * INVERSE - (x - y) * WRAPS) * TWO_32;
    }
    Multiple(x - y, q * INVERSE - (x - y) * WRAPS);
  }

  lemma {:induction false} Multiple(d: int, k: int)
    requires d == k * TWO_32 && -TWO_32 < d < TWO_32
    ensures d == 0
  {
  }

  lemma {:induction false} LowByteCancels(xor: (byte, byte) -> byte, h: u32, b: byte, h': u32, b': byte)
    requires Cancels(xor) && LowByteBy(xor, h, b) == LowByteBy(xor, h', b')
    ensures b == b' <==> h == h'
  {
    assert xor(h % 256, b) == xor(h' % 256, b');
    assert h == h / 256 * 256 + h % 256 && h' == h' / 256 * 256 + h' % 256;
  }

  /** A step is injective in the hash, and in the byte. */
  lemma {:induction false} MixInjective(h: u32, b: byte, h': u32, b': byte)
    requires Mix(h, b) == Mix(h', b')
    ensures b == b' <==> h == h'
  {
    TimesPrime(LowByteBy(Xor, h, b), LowByteBy(Xor, h', b'));
    XorCancels();
    LowByteCancels(Xor, h, b, h', b');
  }

  /** Neither a hash nor a byte can be changed without changing the outcome. */
  ghost predicate Lossless(mix: (u32, byte) -> u32) {
    forall h, b, h', b' :: mix(h, b) == mix(h', b') ==> (b == b' <==> h == h')
  }

  lemma {:induction false} MixLossless()
    ensures Lossless(Mix)
  {
    forall h, b, h', b' | Mix(h, b) == Mix(h', b') ensures b == b' <==> h == h' {
      MixInjective(h, b, h', b');
    }
  }

  /** Feeding the same bytes keeps different hashes different. */
  lemma {:induction false} RunInjective(mix: (u32, byte) -> u32, h: u32, h': u32, bytes: Bytes)
    requires Lossless(mix)
    ensures Run(mix, h, bytes) == Run(mix, h', bytes) <==> h == h'
    decreases bytes
  {
    if bytes != [] {
      RunInjective(mix, mix(h, bytes[0]), mix(h', bytes[0]), bytes[1..]);
    }
  }

  lemma {:induction false} RunAppend(mix: (u32, byte) -> u32, h: u32, a: Bytes, b: Bytes)
    ensures Run(mix, h, a + b) == Run(mix, Run(mix, h, a), b)
    decreases a
  {
    if a == [] {
      assert a + b == b;
    } else {
      RunAppend(mix, mix(h, a[0]), a[1..], b);
      assert (a + b)[1..] == a[1..] + b;
    }
  }

  lemma {:induction false} RunOne(mix: (u32, byte) -> u32, h: u32, b: byte)
    ensures Run(mix, h, [b]) == mix(h, b)
  {
    assert [b][1..] == [];
  }

  /** Byte strings that differ in exactly one place never collide. */
  lemma {:induction false} OneByteShows(mix: (u32, byte) -> u32, h: u32, front: Bytes, b: byte, b': byte, back: Bytes)
    requires Lossless(mix)
    ensures Run(mix, h, front + [b] + back) == Run(mix, h, front + [b'] + back) <==> b == b'
  {
    RunAppend(mix, h, front + [b], back);
    RunAppend(mix, h, front + [b'], back);
    RunAppend(mix, h, front, [b]);
    RunAppend(mix, h, front, [b']);
    var m := Run(mix, h, front);
    RunOne(mix, m, b);
    RunOne(mix, m, b');
    RunInjective(mix, mix(m, b), mix(m, b'), back);
  }

  // -------------------------------------------------------------- adjacent bytes

  /** A change of the low byte moves the product by more than one byte, in either direction around 2^32. */
  lemma {:induction false} PrimeSpreads(d: int, e: int, k: int)
    requires 0 < d < 256 && -256 < e < 256
    ensures d * PRIME != e + k * TWO_32
  {
    assert 0 < d * PRIME - e < TWO_32;
  }

  lemma {:induction false} SameHigh(x: nat, y: nat)
    requires x / 256 == y / 256
    ensures -256 < x - y < 256
  {
  }

  /** Words that differ in the low byte only have products that differ above it. */
  lemma {:induction false} HighDiffers(high: nat, low: byte, low': byte)
    requires (high * 256 + low) * PRIME % TWO_32 / 256 == (high * 256 + low') * PRIME % TWO_32 / 256
    ensures low == low'
  {
    var (a, b) := ((high * 256 + low) * PRIME, (high * 256 + low') * PRIME);
    var (x, y) := (a % TWO_32, b % TWO_32);
    var k := a / TWO_32 - b / TWO_32;
    assert a - b == (low - low') * PRIME;
    assert a - b == x - y + k * TWO_32;
    SameHigh(x, y);
    if low > low' {
      PrimeSpreads(low - low', x - y, k);
    } else if low < low' {
      PrimeSpreads(low' - low, y - x, -k);
    }
  }

  lemma {:induction false} SecondAgrees(x: u32, c: byte, y: u32, c': byte)
    requires Mix(x, c) == Mix(y, c')
    ensures x / 256 == y / 256
  {
    TimesPrime(LowByteBy(Xor, x, c), LowByteBy(Xor, y, c'));
  }

  lemma {:induction false} FirstAgrees(h: u32, b: byte, b': byte)
    requires Mix(h, b) / 256 == Mix(h, b') / 256
    ensures b == b'
  {
    HighDiffers(h / 256, Xor(h % 256, b), Xor(h % 256, b'));
    XorCancels();
  }

  /** Two steps of the hash tell any two pairs of bytes apart. */
  lemma {:induction false} TwoSteps(h: u32, b: byte, c: byte, b': byte, c': byte)
    requires Mix(Mix(h, b), c) == Mix(Mix(h, b'), c')
    ensures b == b' && c == c'
  {
    var (x, y) := (Mix(h, b), Mix(h, b'));
    SecondAgrees(x, c, y, c');
    FirstAgrees(h, b, b');
    MixInjective(x, c, y, c');
  }

  lemma {:induction false} RunTwo(mix: (u32, byte) -> u32, h: u32, b: byte, c: byte)
    ensures Run(mix, h, [b, c]) == mix(mix(h, b), c)
  {
    assert [b, c][1..] == [c];
    RunOne(mix, mix(h, b), c);
  }

  /** Byte strings that differ within two adjacent places only never collide. */
  lemma {:induction false} TwoBytesShow(h: u32, front: Bytes, b: byte, c: byte, b': byte, c': byte, back: Bytes)
    ensures Fnv(h, front + [b, c] + back) == Fnv(h, front + [b', c'] + back) <==> b == b' && c == c'
  {
    var m := Fnv(h, front);
    RunAppend(Mix, h, front + [b, c], back);
    RunAppend(Mix, h, front + [b', c'], back);
    RunAppend(Mix, h, front, [b, c]);
    RunAppend(Mix, h, front, [b', c']);
    RunTwo(Mix, m, b, c);
    RunTwo(Mix, m, b', c');
    MixLossless();
    RunInjective(Mix, Mix(Mix(m, b), c), Mix(Mix(m, b'), c'), back);
    if Mix(Mix(m, b), c) == Mix(Mix(m, b'), c') {
      TwoSteps(m, b, c, b', c');
    }
  }

  // --------------------------------------------------------------- the fingerprint

  function Fingerprint(version: Bytes, features: u32): u32 {
    Fnv(Fnv(Fnv(OFFSET, version), [VERSION]), LittleEndian(features, 4))
  }

  /** The fingerprint as it is computed at build time, loop by loop. */
  method ComputeFingerprint(version: Bytes, features: u32) returns (f: u32)
    ensures f == Fingerprint(version, features)
  {
    f := Fnv1a(OFFSET, version);
    f := Fnv1a(f, [VERSION]);
    f := Fnv1a(f, LittleEndian(features, 4));
  }

  lemma {:induction false} LowByte(n: byte)
    ensures LittleEndian(n, 4) == [] + [n] + [0, 0, 0]
  {
    assert LittleEndian(0, 1) == [0];
    assert LittleEndian(0, 2) == [0, 0];
    assert LittleEndian(0, 3) == [0, 0, 0];
  }

  /** Builds of one version agree if and only if they have the same features. */
  lemma {:induction false} FeaturesShow(version: Bytes, features: u32, features': u32)
    requires features < 256 && features' < 256
    ensures Fingerprint(version, features) == Fingerprint(version, features') <==> features == features'
  {
    LowByte(features);
    LowByte(features');
    MixLossless();
    OneByteShows(Mix, Fnv(Fnv(OFFSET, version), [VERSION]), [], features, features', [0, 0, 0]);
  }

  /** Builds with the same features agree if and only if their versions hash alike. */
  lemma {:induction false} VersionsShow(version: Bytes, version': Bytes, features: u32)
    ensures Fingerprint(version, features) == Fingerprint(version', features) <==>
      Fnv(OFFSET, version) == Fnv(OFFSET, version')
  {
    var (h, h') := (Fnv(OFFSET, version), Fnv(OFFSET, version'));
    MixLossless();
    RunInjective(Mix, h, h', [VERSION]);
    RunInjective(Mix, Fnv(h, [VERSION]), Fnv(h', [VERSION]), LittleEndian(features, 4));
  }

  /**
   A release that changes one character of the version, or two adjacent ones as when a
   digit rolls over, is always told apart.
   */
  lemma {:induction false} PatchShows(front: Bytes, b: byte, c: byte, b': byte, c': byte, back: Bytes, features: u32)
    ensures Fingerprint(front + [b, c] + back, features) == Fingerprint(front + [b', c'] + back, features) <==>
      b == b' && c == c'
  {
    VersionsShow(front + [b, c] + back, front + [b', c'] + back, features);
    TwoBytesShow(OFFSET, front, b, c, b', c', back);
  }

  // ------------------------------------------------------------------ a collision

  /** One step, with the low byte it leaves and the multiple of 2^32 that wraps away. */
  lemma {:induction false} MixIs(h: u32, b: byte, low: byte, wraps: nat, next: u32)
    requires Xor(h % 256, b) == low && (h / 256 * 256 + low) * PRIME == next + wraps * TWO_32
    ensures Mix(h, b) == next
  {
    Wrapped(LowByteBy(Xor, h, b) * PRIME, next, wraps);
  }

  lemma {:induction false} Chain(mix: (u32, byte) -> u32, hs: seq<u32>, bytes: Bytes)
    requires |hs| == |bytes| + 1 && forall i :: 0 <= i < |bytes| ==> mix(hs[i], bytes[i]) == hs[i + 1]
    ensures Run(mix, hs[0], bytes) == hs[|bytes|]
  {
    if bytes != [] {
      Chain(mix, hs[1..], bytes[1..]);
    }
  }

  lemma {:induction false} Wrapped(x: int, next: u32, wraps: nat)
    requires x == next + wraps * TWO_32
    ensures x % TWO_32 == next
  {
  }

  lemma {:induction false} FirstHash(v: Bytes)
    requires v == [51, 46, 50, 55, 46, 50]
    ensures Fnv(OFFSET, v) == 3448104115
  {
    MixIs(2166136261, 51, 246, 8461673, 906799682);
    MixIs(906799682, 46, 108, 3542271, 2180007940);
    MixIs(2180007940, 50, 54, 8515860, 3275861250);
    MixIs(3275861250, 55, 53, 12796640, 2506336879);
    MixIs(2506336879, 46, 65, 9790613, 1826948179);
    MixIs(1826948179, 50, 97, 7136687, 3448104115);
    Chain(Mix, [2166136261, 906799682, 2180007940, 3275861250, 2506336879, 1826948179, 3448104115], v);
  }

  lemma {:induction false} SecondHash(v: Bytes)
    requires v == [48, 46, 49, 53, 57, 46, 57, 56]
    ensures Fnv(OFFSET, v) == 3448104115
  {
    MixIs(2166136261, 48, 245, 8461673, 890022063);
    MixIs(890022063, 46, 129, 3476732, 65880851);
    MixIs(65880851, 49, 34, 257353, 1350610566);
    MixIs(1350610566, 53, 179, 5275949, 1838351305);
    MixIs(1838351305, 57, 240, 7181232, 1852781264);
    MixIs(1852781264, 46, 254, 7237600, 3607971290);
    MixIs(3607971290, 57, 227, 14093976, 1826948185);
    MixIs(1826948185, 56, 97, 7136687, 3448104115);
    Chain(Mix, [2166136261, 890022063, 65880851, 1350610566, 1838351305, 1852781264, 3607971290, 1826948185, 3448104115], v);
  }

  lemma {:induction false} Ascii(s: string, b: Bytes)
    requires |s| == |b| && forall i :: 0 <= i < |s| ==> s[i] as int == b[i] < 128
    ensures ToUtf8(s) == b
  {
    if s != [] {
      Ascii(s[1..], b[1..]);
    }
  }

  lemma {:induction false} VersionHash(v: Bytes)
    requires v == [48, 46, 50, 46, 48]
    ensures Fnv(OFFSET, v) == 98705269
  {
    MixIs(2166136261, 48, 245, 8461673, 890022063);
    MixIs(890022063, 46, 129, 3476732, 65880851);
    MixIs(65880851, 50, 33, 257353, 1333832947);
    MixIs(1333832947, 46, 221, 5210410, 76554215);
    MixIs(76554215, 48, 215, 299047, 98705269);
    Chain(Mix, [2166136261, 890022063, 65880851, 1333832947, 76554215, 98705269], v);
  }

  lemma {:induction false} TailHash(tail: Bytes)
    requires tail == [1, 0, 0, 0]
    ensures Fnv(98705269, [2]) == 3120007253 && Fnv(3120007253, tail) == 4067211668
  {
    MixIs(98705269, 2, 119, 385576, 3120007253);
    RunOne(Mix, 98705269, 2);
    MixIs(3120007253, 1, 84, 12187821, 346790972);
    MixIs(346790972, 0, 60, 1354684, 3324441204);
    MixIs(3324441204, 0, 116, 12986410, 1666165916);
    MixIs(1666165916, 0, 156, 6508616, 4067211668);
    Chain(Mix, [3120007253, 346790972, 3324441204, 1666165916, 4067211668], tail);
  }

  /** Version, then payload version, then features: version 0.2.0 with the first feature has this fingerprint. */
  lemma {:induction false} KnownFingerprint()
    ensures Fingerprint(ToUtf8("0.2.0"), 1) == 0xf26cb994
  {
    Ascii("0.2.0", [48, 46, 50, 46, 48]);
    LowByte(1);
    assert LittleEndian(1, 4) == [1, 0, 0, 0];
    VersionHash(ToUtf8("0.2.0"));
    TailHash(LittleEndian(1, 4));
  }

  /** Two versions can share a fingerprint: `3.27.2` and `0.159.98` do. */
  lemma {:induction false} VersionsMayCollide(features: u32)
    ensures Fingerprint(ToUtf8("3.27.2"), features) == Fingerprint(ToUtf8("0.159.98"), features)
  {
    Ascii("3.27.2", [51, 46, 50, 55, 46, 50]);
    Ascii("0.159.98", [48, 46, 49, 53, 57, 46, 57, 56]);
    Collide(ToUtf8("3.27.2"), ToUtf8("0.159.98"), features);
  }

  lemma {:induction false} Collide(v: Bytes, w: Bytes, features: u32)
    requires v == [51, 46, 50, 55, 46, 50] && w == [48, 46, 49, 53, 57, 46, 57, 56]
    ensures Fingerprint(v, features) == Fingerprint(w, features)
  {
    FirstHash(v);
    SecondHash(w);
    VersionsShow(v, w, features);
  }
}
