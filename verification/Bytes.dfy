/**
 Bytes, fixed-width unsigned integers and their little-endian memory images.

 Every integer that crosses the network is copied with `memcpy` from its in-memory
 representation; one byte order (little-endian) is fixed for both ends.
 */
module Bytes {

  type byte = x: nat | x < 0x100
  type u16 = x: nat | x < 0x1_0000
  type u32 = x: nat | x < 0x1_0000_0000
  type u64 = x: nat | x < 0x1_0000_0000_0000_0000

  function Min(a: nat, b: nat): nat {
    if a <= b then a else b
  }

  function Max(a: nat, b: nat): nat {
    if a <= b then b else a
  }

  /** `k` zero bytes: what `vector::resize` and `string::resize` append. */
  function Zeros(k: nat): (s: seq<byte>)
    ensures |s| == k
  {
    seq(k, i => 0)
  }

  /** `resize` of a vector or string: cut, or extend with zeros. */
  function Resize(s: seq<byte>, n: nat): (r: seq<byte>)
    ensures |r| == n
  {
    if n <= |s| then s[..n] else s + Zeros(n - |s|)
  }

  lemma ResizeKeeps(s: seq<byte>, n: nat, k: nat)
    requires k <= n && k <= |s|
    ensures Resize(s, n)[..k] == s[..k]
  {
  }

  lemma Associative<T>(a: seq<T>, b: seq<T>, c: seq<T>)
    ensures a + (b + c) == a + b + c
  {
  }

  /** 256 to the power `k`: the number of values that fit in `k` bytes. */
  function Capacity(k: nat): (c: nat)
    ensures c > 0
  {
    if k == 0 then 1 else 0x100 * Capacity(k - 1)
  }

  /** Byte `i` of the representation of `n`, counted from the least significant one. */
  function Digit(n: nat, i: nat): byte
    decreases i
  {
    if i == 0 then n % 0x100 else Digit(n / 0x100, i - 1)
  }

  /** The `k`-byte little-endian image of `n`. */
  function ToLe(n: nat, k: nat): (s: seq<byte>)
    ensures |s| == k
  {
    seq(k, i requires 0 <= i < k => Digit(n, i))
  }

  /** The number whose little-endian image is `s`. */
  function FromLe(s: seq<byte>): nat {
    if s == [] then 0 else s[0] + 0x100 * FromLe(s[1..])
  }

  /** An image is its lowest byte followed by the image of the rest. */
  lemma ToLeStep(n: nat, k: nat)
    requires k > 0
    ensures ToLe(n, k) == [n % 0x100] + ToLe(n / 0x100, k - 1)
  {
    assert ToLe(n, k)[0] == Digit(n, 0);
  }

  /** Cutting to `k` bytes keeps the lowest byte and cuts the rest to `k - 1` bytes. */
  lemma ModStep(n: nat, c: nat)
    requires c > 0
    ensures n % (0x100 * c) == n % 0x100 + 0x100 * (n / 0x100 % c)
  {
    var q, r := n / 0x100 / c, n % 0x100 + 0x100 * (n / 0x100 % c);
    assert n / 0x100 == q * c + n / 0x100 % c;
    assert n == 0x100 * (q * c) + r == (0x100 * c) * q + r;
    ModUnique(n, 0x100 * c, q, r);
  }

  lemma {:induction false} TimesAtLeast(d: nat, k: nat)
    requires k > 0
    ensures d * k >= d
  {
    if k > 1 {
      TimesAtLeast(d, k - 1);
      assert d * k == d * (k - 1) + d;
    }
  }

  /** A remainder is all that is left of a number when multiples are taken off. */
  lemma ModUnique(n: nat, d: nat, q: nat, r: nat)
    requires d > 0 && n == d * q + r && r < d
    ensures n % d == r
  {
    var k := q - n / d;
    assert n % d - r == d * k;
    if k > 0 {
      TimesAtLeast(d, k);
    } else if k < 0 {
      TimesAtLeast(d, -k);
    }
  }

  /** Reading back a `k`-byte image gives the number cut to `k` bytes: the number itself, if it fits. */
  lemma {:induction false} FromLeToLe(n: nat, k: nat)
    ensures FromLe(ToLe(n, k)) == n % Capacity(k)
    ensures n < Capacity(k) ==> FromLe(ToLe(n, k)) == n
    decreases k
  {
    if k > 0 {
      ToLeStep(n, k);
      FromLeToLe(n / 0x100, k - 1);
      assert ToLe(n, k)[1..] == ToLe(n / 0x100, k - 1);
      ModStep(n, Capacity(k - 1));
    }
  }

  /** Every byte string is the image of exactly the number it decodes to. */
  lemma {:induction false} ToLeFromLe(s: seq<byte>)
    ensures FromLe(s) < Capacity(|s|)
    ensures ToLe(FromLe(s), |s|) == s
    decreases |s|
  {
    if s != [] {
      ToLeFromLe(s[1..]);
      var n := FromLe(s);
      assert n % 0x100 == s[0] && n / 0x100 == FromLe(s[1..]);
      ToLeStep(n, |s|);
    }
  }

  lemma DivStep(n: nat, c: nat)
    requires c > 0
    ensures n / 0x100 / c == n / (0x100 * c)
  {
    var q, r := n / 0x100 / c, n % (0x100 * c);
    ModStep(n, c);
    assert n / 0x100 == q * c + n / 0x100 % c;
    assert (0x100 * c) * q + r == n;
    DivUnique(n, 0x100 * c, q, r);
  }

  lemma DivUnique(n: nat, d: nat, q: nat, r: nat)
    requires d > 0 && n == d * q + r && r < d
    ensures n / d == q
  {
    ModUnique(n, d, q, r);
    SameFactor(d, q, n / d);
  }

  lemma SameFactor(d: nat, a: nat, b: nat)
    requires d > 0 && d * a == d * b
    ensures a == b
  {
    if a < b {
      TimesAtLeast(d, b - a);
    } else if b < a {
      TimesAtLeast(d, a - b);
    }
  }

  /** The layout: the byte at offset `i` weighs 256 to the power `i`. */
  lemma {:induction false} LittleEndian(n: nat, k: nat, i: nat)
    requires i < k
    ensures ToLe(n, k)[i] == n / Capacity(i) % 0x100
    decreases i
  {
    if i > 0 {
      LittleEndian(n / 0x100, k - 1, i - 1);
      ToLeStep(n, k);
      DivStep(n, Capacity(i - 1));
    }
  }

  lemma Capacities()
    ensures Capacity(2) == 0x1_0000
    ensures Capacity(4) == 0x1_0000_0000
    ensures Capacity(8) == 0x1_0000_0000_0000_0000
  {
    assert Capacity(1) == 0x100;
    assert Capacity(2) == 0x1_0000;
    assert Capacity(3) == 0x100_0000;
    assert Capacity(4) == 0x1_0000_0000;
    assert Capacity(5) == 0x100_0000_0000;
    assert Capacity(6) == 0x1_0000_0000_0000;
    assert Capacity(7) == 0x100_0000_0000_0000;
  }

  function Le16(n: u16): (s: seq<byte>)
    ensures |s| == 2
  {
    ToLe(n, 2)
  }

  function Le32(n: u32): (s: seq<byte>)
    ensures |s| == 4
  {
    ToLe(n, 4)
  }

  function Le64(n: u64): (s: seq<byte>)
    ensures |s| == 8
  {
    ToLe(n, 8)
  }

  function To16(s: seq<byte>): u16
    requires |s| == 2
  {
    Capacities(); ToLeFromLe(s);
    FromLe(s)
  }

  function To32(s: seq<byte>): u32
    requires |s| == 4
  {
    Capacities(); ToLeFromLe(s);
    FromLe(s)
  }

  function To64(s: seq<byte>): u64
    requires |s| == 8
  {
    Capacities(); ToLeFromLe(s);
    FromLe(s)
  }

  lemma RoundTrip16(n: u16, s: seq<byte>)
    requires |s| == 2
    ensures To16(Le16(n)) == n && Le16(To16(s)) == s
  {
    Capacities(); FromLeToLe(n, 2); ToLeFromLe(s);
  }

  lemma RoundTrip32(n: u32, s: seq<byte>)
    requires |s| == 4
    ensures To32(Le32(n)) == n && Le32(To32(s)) == s
  {
    Capacities(); FromLeToLe(n, 4); ToLeFromLe(s);
  }

  lemma RoundTrip64(n: u64, s: seq<byte>)
    requires |s| == 8
    ensures To64(Le64(n)) == n && Le64(To64(s)) == s
  {
    Capacities(); FromLeToLe(n, 8); ToLeFromLe(s);
  }
}
