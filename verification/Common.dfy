/** Types and small facts shared by every other module. */
module Common {

  datatype Option<+T> = None | Some(value: T)

  datatype Result<+T, +E> = Ok(value: T) | Err(error: E)

  type byte = b: int | 0 <= b < 256

  type Bytes = seq<byte>

  const U64_LIMIT: nat := 0x1_0000_0000_0000_0000

  const U32_LIMIT: nat := 0x1_0000_0000

  /** One 16-bit audio sample. */
  type Sample = n: int | -32768 <= n < 32768

  type i64 = n: int | -0x8000_0000_0000_0000 <= n < 0x8000_0000_0000_0000

  type u32 = n: int | 0 <= n < U32_LIMIT

  type u64 = n: int | 0 <= n < U64_LIMIT

  /** Rust's saturating addition on u64. */
  function SatAdd(a: u64, b: u64): (r: u64) {
    if a + b < U64_LIMIT then a + b else U64_LIMIT - 1
  }

  /** A mathematical count as a saturating u64 counter would show it. */
  function Sat(n: nat): u64 {
    if n < U64_LIMIT then n else U64_LIMIT - 1
  }

  /** Saturating counters add up to the saturated total. */
  lemma SatSum(a: nat, b: nat)
    ensures SatAdd(Sat(a), Sat(b)) == Sat(a + b)
  {
  }

  function Pow256(k: nat): (p: nat)
    ensures p > 0
  {
    if k == 0 then 1 else 256 * Pow256(k - 1)
  }

  /** The k low-order bytes of n, most significant first (to_be_bytes). */
  function BigEndian(n: nat, k: nat): (s: Bytes)
    ensures |s| == k
    decreases k
  {
    if k == 0 then [] else BigEndian(n / 256, k - 1) + [n % 256]
  }

  /** from_be_bytes. */
  function FromBigEndian(s: Bytes): (n: nat)
    ensures n < Pow256(|s|)
  {
    if s == [] then 0
    else FromBigEndian(s[..|s| - 1]) * 256 + s[|s| - 1]
  }

  lemma {:induction false} BigEndianRoundTrip(n: nat, k: nat)
    requires n < Pow256(k)
    ensures FromBigEndian(BigEndian(n, k)) == n
    decreases k
  {
    if k > 0 {
      BigEndianRoundTrip(n / 256, k - 1);
      assert BigEndian(n, k)[..k - 1] == BigEndian(n / 256, k - 1);
    }
  }

  lemma {:induction false} FromBigEndianRoundTrip(s: Bytes)
    ensures BigEndian(FromBigEndian(s), |s|) == s
  {
    if s != [] {
      FromBigEndianRoundTrip(s[..|s| - 1]);
      assert FromBigEndian(s) / 256 == FromBigEndian(s[..|s| - 1]);
    }
  }

  lemma Pow256Of8()
    ensures Pow256(8) == U64_LIMIT
  {
  }

  /** Byte i of a u64, counted from the most significant (to_be_bytes). */
  function U64Byte(n: u64, i: nat): byte
    requires i < 8
  {
    (n / Pow256(7 - i)) % 256
  }

  function U64Bytes(n: u64): (s: Bytes)
    ensures |s| == 8
  {
    seq(8, i requires 0 <= i < 8 => U64Byte(n, i))
  }

  lemma DivideTwice(n: nat, p: nat)
    requires p > 0
    ensures (n / 256) / p == n / (256 * p)
  {
    var q, r := n / 256, n % 256;
    var a, b := q / p, q % p;
    assert n == (256 * p) * a + (256 * b + r) by {
      assert n == 256 * (p * a + b) + r;
    }
    assert 0 <= 256 * b + r < 256 * p;
    QuotientUnique(n, 256 * p, a, 256 * b + r);
  }

  lemma QuotientUnique(n: int, d: int, q: int, r: int)
    requires 0 < d && 0 <= r < d && n == d * q + r
    ensures n / d == q
  {
    assert d * (n / d - q) == r - n % d;
    MultipleBounds(d, n / d - q);
  }

  lemma MultipleBounds(d: int, k: int)
    requires 0 < d
    ensures k >= 1 ==> d * k >= d
    ensures k <= -1 ==> d * k <= -d
  {
  }

  lemma {:induction false} BigEndianDigit(n: nat, k: nat, i: nat)
    requires i < k
    ensures BigEndian(n, k)[i] == (n / Pow256(k - 1 - i)) % 256
    decreases k
  {
    if i < k - 1 {
      BigEndianDigit(n / 256, k - 1, i);
      DivideTwice(n, Pow256(k - 2 - i));
    }
  }

  lemma U64BytesBigEndian(n: u64)
    ensures U64Bytes(n) == BigEndian(n, 8)
  {
    forall i | 0 <= i < 8 ensures U64Bytes(n)[i] == BigEndian(n, 8)[i] {
      BigEndianDigit(n, 8, i);
    }
  }

  function U64OfBytes(s: Bytes): (n: u64)
    requires |s| == 8
  {
    Pow256Of8();
    FromBigEndian(s)
  }

  lemma U64RoundTrip(n: u64)
    ensures U64OfBytes(U64Bytes(n)) == n
  {
    Pow256Of8();
    U64BytesBigEndian(n);
    BigEndianRoundTrip(n, 8);
  }

  lemma U64BytesRoundTrip(s: Bytes)
    requires |s| == 8
    ensures U64Bytes(U64OfBytes(s)) == s
  {
    FromBigEndianRoundTrip(s);
    U64BytesBigEndian(U64OfBytes(s));
  }

  // ---- The order of byte strings ----

  /** The order in which a sorted key space lists its keys. */
  predicate LexLess(a: Bytes, b: Bytes) {
    b != [] && (a == [] || a[0] < b[0] || (a[0] == b[0] && LexLess(a[1..], b[1..])))
  }

  lemma {:induction false} LexParts(a: Bytes, b: Bytes, c: Bytes, d: Bytes)
    requires |a| == |c|
    ensures LexLess(a + b, c + d) <==> LexLess(a, c) || (a == c && LexLess(b, d))
  {
    if a == [] {
      assert a + b == b && c + d == d;
    } else {
      assert (a + b)[1..] == a[1..] + b && (c + d)[1..] == c[1..] + d;
      LexParts(a[1..], b, c[1..], d);
      assert a == [a[0]] + a[1..] && c == [c[0]] + c[1..];
    }
  }

  lemma LexDigit(x: byte, y: byte)
    ensures LexLess([x], [y]) <==> x < y
  {
    assert !LexLess([x][1..], [y][1..]);
  }

  lemma {:induction false} NotBeforeItself(a: Bytes)
    ensures !LexLess(a, a)
  {
    if a != [] {
      NotBeforeItself(a[1..]);
    }
  }

  lemma SameNumber(a: Bytes, b: Bytes)
    requires |a| == |b|
    ensures FromBigEndian(a) == FromBigEndian(b) <==> a == b
  {
    FromBigEndianRoundTrip(a);
    FromBigEndianRoundTrip(b);
  }

  lemma LastDigit(s: Bytes)
    requires s != []
    ensures FromBigEndian(s) == FromBigEndian(s[..|s| - 1]) * 256 + s[|s| - 1]
  {
  }

  /** Big-endian byte strings of one length order as their numbers do. */
  lemma {:induction false} LexIsNumeric(a: Bytes, b: Bytes)
    requires |a| == |b|
    ensures LexLess(a, b) <==> FromBigEndian(a) < FromBigEndian(b)
  {
    hide LexLess, FromBigEndian;
    if a == [] {
      NotBeforeItself(a);
    } else {
      var n := |a| - 1;
      var p, q := a[..n], b[..n];
      LexIsNumeric(p, q);
      SameNumber(p, q);
      LexParts(p, [a[n]], q, [b[n]]);
      LexDigit(a[n], b[n]);
      assert a == p + [a[n]] && b == q + [b[n]];
      LastDigit(a);
      LastDigit(b);
    }
  }
}
