/**
 * Shared value-level helpers: bytes, optional and fallible results,
 * fixed-width big- and little-endian integers, UTF-8 encoding, decimal
 * rendering and the sum of the values of a map.
 */
module Base {

  newtype byte = x: int | 0 <= x < 256

  datatype Option<T> = None | Some(value: T)
  {
    /** Rust's `Option::unwrap_or`. */
    function UnwrapOr(default: T): T
    {
      if Some? then value else default
    }
  }

  datatype Result<T, E> = Ok(value: T) | Err(error: E)
  {
    predicate IsOk() { Ok? }
  }

  const U64_MAX: nat := 0xFFFF_FFFF_FFFF_FFFF
  const U16_MAX: nat := 0xFFFF

  type u64 = x: nat | x <= U64_MAX
  type u32 = x: nat | x <= 0xFFFF_FFFF
  type u16 = x: nat | x <= U16_MAX

  function Zeros(n: nat): (s: seq<byte>)
    ensures |s| == n
    ensures forall i :: 0 <= i < n ==> s[i] == 0
  {
    seq(n, _ => 0)
  }

  type Bytes20 = s: seq<byte> | |s| == 20 witness Zeros(20)
  type Bytes32 = s: seq<byte> | |s| == 32 witness Zeros(32)

  // ---------------------------------------------------------------------
  // Fixed-width unsigned integers

  function Pow256(n: nat): (p: nat)
    ensures p >= 1
  {
    if n == 0 then 1 else 256 * Pow256(n - 1)
  }

  lemma {:induction false} Pow256Monotonic(m: nat, n: nat)
    requires m <= n
    ensures Pow256(m) <= Pow256(n)
    decreases n
  {
    if m < n {
      Pow256Monotonic(m, n - 1);
    }
  }

  /** `width` bytes, most significant first (primitive-types' `to_big_endian`). */
  function ToBigEndian(x: nat, width: nat): (s: seq<byte>)
    requires x < Pow256(width)
    ensures |s| == width
  {
    if width == 0 then []
    else ToBigEndian(x / 256, width - 1) + [(x % 256) as byte]
  }

  /** primitive-types' `from_big_endian`: the value of a most-significant-first byte string. */
  function FromBigEndian(s: seq<byte>): (x: nat)
    ensures x < Pow256(|s|)
  {
    if s == [] then 0
    else
      var high := FromBigEndian(s[..|s| - 1]);
      assert high <= Pow256(|s| - 1) - 1;
      assert high * 256 <= (Pow256(|s| - 1) - 1) * 256;
      high * 256 + s[|s| - 1] as nat
  }

  lemma {:induction false} BigEndianRoundTrip(x: nat, width: nat)
    requires x < Pow256(width)
    ensures FromBigEndian(ToBigEndian(x, width)) == x
  {
    if width > 0 {
      var s := ToBigEndian(x, width);
      assert s[..width - 1] == ToBigEndian(x / 256, width - 1);
      BigEndianRoundTrip(x / 256, width - 1);
    }
  }

  lemma {:induction false} BigEndianInjective(x: nat, y: nat, width: nat)
    requires x < Pow256(width) && y < Pow256(width)
    requires ToBigEndian(x, width) == ToBigEndian(y, width)
    ensures x == y
  {
    BigEndianRoundTrip(x, width);
    BigEndianRoundTrip(y, width);
  }

  /** `width` bytes, least significant first (Rust's `to_le_bytes`). */
  function ToLittleEndian(x: nat, width: nat): (s: seq<byte>)
    requires x < Pow256(width)
    ensures |s| == width
  {
    if width == 0 then []
    else [(x % 256) as byte] + ToLittleEndian(x / 256, width - 1)
  }

  /** Rust's `from_le_bytes`. */
  function FromLittleEndian(s: seq<byte>): nat
  {
    if s == [] then 0 else s[0] as nat + 256 * FromLittleEndian(s[1..])
  }

  lemma {:induction false} LittleEndianRoundTrip(x: nat, width: nat)
    requires x < Pow256(width)
    ensures FromLittleEndian(ToLittleEndian(x, width)) == x
  {
    if width > 0 {
      var s := ToLittleEndian(x, width);
      assert s[1..] == ToLittleEndian(x / 256, width - 1);
      LittleEndianRoundTrip(x / 256, width - 1);
    }
  }

  lemma U64FitsEightBytes(x: u64)
    ensures x < Pow256(8)
  {
    assert Pow256(8) == 0x1_0000_0000_0000_0000;
  }

  /** Rust's `u64::to_le_bytes`; reading the bytes back gives the number. */
  function LittleEndianU64(x: u64): (s: seq<byte>)
    ensures |s| == 8
    ensures FromLittleEndian(s) == x
  {
    U64FitsEightBytes(x);
    LittleEndianRoundTrip(x, 8);
    ToLittleEndian(x, 8)
  }

  // ---------------------------------------------------------------------
  // UTF-8 (Rust `str::as_bytes`, `str::len`)

  /** Number of bytes UTF-8 uses for one Unicode scalar value. */
  function Utf8Width(c: char): nat
  {
    if c as int < 0x80 then 1
    else if c as int < 0x800 then 2
    else if c as int < 0x10000 then 3
    else 4
  }

  /** Rust's `str::len`: the length of the string's UTF-8 encoding. */
  function Utf8Length(s: string): nat
  {
    if s == [] then 0 else Utf8Width(s[0]) + Utf8Length(s[1..])
  }

  function EncodeChar(c: char): (b: seq<byte>)
    ensures |b| == Utf8Width(c)
  {
    var n := c as int;
    if n < 0x80 then [n as byte]
    else if n < 0x800 then [(0xC0 + n / 64) as byte, (0x80 + n % 64) as byte]
    else if n < 0x10000 then
      [(0xE0 + n / 4096) as byte, (0x80 + (n / 64) % 64) as byte, (0x80 + n % 64) as byte]
    else
      assert n < 0x110000;
      [(0xF0 + n / 262144) as byte, (0x80 + (n / 4096) % 64) as byte,
       (0x80 + (n / 64) % 64) as byte, (0x80 + n % 64) as byte]
  }

  /** Rust's `str::as_bytes`. */
  function Utf8(s: string): (b: seq<byte>)
    ensures |b| == Utf8Length(s)
  {
    if s == [] then [] else EncodeChar(s[0]) + Utf8(s[1..])
  }

  predicate IsAscii(s: string)
  {
    forall i :: 0 <= i < |s| ==> s[i] as int < 0x80
  }

  lemma {:induction false} AsciiEncodesOneBytePerChar(s: string)
    requires IsAscii(s)
    ensures |Utf8(s)| == |s|
    ensures forall i :: 0 <= i < |s| ==> Utf8(s)[i] as int == s[i] as int
  {
    if s != [] {
      assert IsAscii(s[1..]) by {
        forall i | 0 <= i < |s[1..]| ensures s[1..][i] as int < 0x80 {
          assert s[1..][i] == s[i + 1];
        }
      }
      AsciiEncodesOneBytePerChar(s[1..]);
    }
  }

  // ---------------------------------------------------------------------
  // Decimal rendering (Rust's `Display` for unsigned integers)

  function DigitChar(d: nat): char
    requires d < 10
  {
    "0123456789"[d]
  }

  function Decimal(n: nat): (s: string)
    ensures |s| >= 1
    ensures forall i :: 0 <= i < |s| ==> '0' <= s[i] <= '9'
  {
    if n < 10 then [DigitChar(n)] else Decimal(n / 10) + [DigitChar(n % 10)]
  }

  function Pow10(k: nat): (p: nat)
    ensures p >= 1
  {
    if k == 0 then 1 else 10 * Pow10(k - 1)
  }

  lemma {:induction false} Pow10Add(a: nat, b: nat)
    ensures Pow10(a + b) == Pow10(a) * Pow10(b)
  {
    if a > 0 {
      Pow10Add(a - 1, b);
    }
  }

  lemma {:induction false} DecimalLength(n: nat, k: nat)
    requires 1 <= k && n < Pow10(k)
    ensures |Decimal(n)| <= k
  {
    if n >= 10 {
      assert Pow10(0) == 1;
      assert n / 10 < Pow10(k - 1);
      DecimalLength(n / 10, k - 1);
    }
  }

  // ---------------------------------------------------------------------
  // Sum of the values of a map (Rust's `values().sum()` on a HashMap)

  ghost function Pick<K>(s: set<K>): K
    requires s != {}
  {
    var k :| k in s; k
  }

  ghost function Total<K>(m: map<K, nat>): nat
    decreases |m|
  {
    if m == map[] then 0
    else
      var k := Pick(m.Keys);
      m[k] + Total(m - {k})
  }

  function Get<K>(m: map<K, nat>, k: K): nat
  {
    if k in m then m[k] else 0
  }

  lemma {:induction false} TotalRemove<K>(m: map<K, nat>, x: K)
    requires x in m
    ensures Total(m) == m[x] + Total(m - {x})
    decreases |m|
  {
    var k := Pick(m.Keys);
    assert Total(m) == m[k] + Total(m - {k});
    if k != x {
      var withoutK := m - {k};
      var withoutX := m - {x};
      assert x in withoutK && withoutK[x] == m[x];
      assert |withoutK| < |m|;
      TotalRemove(withoutK, x);
      assert k in withoutX && withoutX[k] == m[k];
      assert |withoutX| < |m|;
      TotalRemove(withoutX, k);
      assert withoutK - {x} == withoutX - {k};
    }
  }

  /** Writing `v` at `k` changes the total by exactly the difference. */
  lemma TotalUpdate<K>(m: map<K, nat>, k: K, v: nat)
    ensures Total(m[k := v]) + Get(m, k) == Total(m) + v
  {
    var m' := m[k := v];
    TotalRemove(m', k);
    assert m' - {k} == m - {k};
    if k in m {
      TotalRemove(m, k);
    } else {
      assert m - {k} == m;
    }
  }

  lemma TotalSingleton<K>(k: K, v: nat)
    ensures Total(map[k := v]) == v
  {
    TotalRemove(map[k := v], k);
    assert map[k := v] - {k} == map[];
  }

  lemma TotalDelete<K>(m: map<K, nat>, k: K)
    ensures Total(m - {k}) + Get(m, k) == Total(m)
  {
    if k in m {
      TotalRemove(m, k);
    } else {
      assert m - {k} == m;
    }
  }

  lemma ValueAtMostTotal<K>(m: map<K, nat>, k: K)
    ensures Get(m, k) <= Total(m)
  {
    TotalDelete(m, k);
  }
}
