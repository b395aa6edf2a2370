/** C's fixed-width integers, written over Dafny's unbounded `int`.
    A right shift of a signed value is floor division, which is what `/` means for a positive divisor. */
module CInt {
  type Int16 = x: int | -32768 <= x <= 32767
  type Int32 = x: int | -0x8000_0000 <= x < 0x8000_0000
  type UInt32 = x: int | 0 <= x < 0x1_0000_0000
  type Byte = x: int | 0 <= x < 256

  const TWO32: nat := 0x1_0000_0000

  /** The cast `(int16_t) x`: keep the low 16 bits and read them as two's complement. */
  function ToInt16(x: int): (r: Int16)
    ensures (x - r) % 65536 == 0
  {
    var low := x % 65536;
    if low < 32768 then low else low - 65536
  }

  /** Subtraction of `uint32_t` values. */
  function Sub32(a: UInt32, b: UInt32): (r: UInt32)
    ensures (b + r - a) % TWO32 == 0
  {
    if a >= b then a - b else a - b + TWO32
  }

  /** The cast `(int32_t) x`. */
  function ToInt32(x: UInt32): (r: Int32)
    ensures (x - r) % TWO32 == 0
  {
    if x < 0x8000_0000 then x else x - TWO32
  }

  function Clamp(x: int, lo: int, hi: int): int {
    if x > hi then hi else if x < lo then lo else x
  }

  function Abs(x: int): nat {
    if x < 0 then -x else x
  }

  lemma MulBound(a: int, b: int, m: int, n: int)
    requires -m <= a <= m && -n <= b <= n
    ensures -(m * n) <= a * b <= m * n
  {
    assert 0 <= (m - a) * (n + b) && 0 <= (m + a) * (n - b);
    assert 0 <= (m - a) * (n - b) && 0 <= (m + a) * (n + b);
  }

  lemma DivisionIsUnique(v: nat, d: nat, q: nat, r: nat)
    requires r < d && v == d * q + r
    ensures v / d == q && v % d == r
  {
    assert d * (v / d) + v % d == v;
    if v / d < q {
      MulMonotone(d, v / d + 1, q);
    } else if v / d > q {
      MulMonotone(d, q + 1, v / d);
    }
  }

  lemma MulMonotone(d: nat, a: nat, b: nat)
    requires a <= b
    ensures d * a <= d * b
  {
  }

  /** One byte of a number: what is above it, it, and what is below it. */
  lemma ByteOf(n: nat, unit: nat, above: nat, byte: nat, below: nat)
    requires n == unit * (0x100 * above + byte) + below && byte < 0x100 && below < unit
    ensures n / unit % 0x100 == byte
  {
    DivisionIsUnique(n, unit, 0x100 * above + byte, below);
    DivisionIsUnique(0x100 * above + byte, 0x100, above, byte);
  }

  lemma BytesOfWord(a: nat, b: nat, c: nat, d: nat)
    requires a < 256 && b < 256 && c < 256 && d < 256
    ensures var n := 0x100_0000 * a + 0x1_0000 * b + 0x100 * c + d;
            && n / 0x100_0000 % 256 == a && n / 0x1_0000 % 256 == b && n / 0x100 % 256 == c && n % 256 == d
  {
    var n := 0x100_0000 * a + 0x1_0000 * b + 0x100 * c + d;
    ByteOf(n, 0x100_0000, 0, a, 0x1_0000 * b + 0x100 * c + d);
    ByteOf(n, 0x1_0000, a, b, 0x100 * c + d);
    ByteOf(n, 0x100, 0x100 * a + b, c, d);
    DivisionIsUnique(n, 0x100, 0x1_0000 * a + 0x100 * b + c, d);
  }

  function Pow2(n: nat): (r: nat)
    ensures r > 0
  {
    if n == 0 then 1 else 2 * Pow2(n - 1)
  }

  /** `x >> n` of a signed value: n times floor halving. */
  function Shr(x: int, n: nat): (r: int)
    ensures 0 <= x ==> 0 <= r <= x
    decreases n
  {
    if n == 0 then x else Shr(x / 2, n - 1)
  }

  /** `x << n`. */
  function Shl(x: int, n: nat): (r: int)
    ensures 0 <= x ==> 0 <= r
    decreases n
  {
    if n == 0 then x else 2 * Shl(x, n - 1)
  }

  lemma {:induction false} ShrMonotone(x: int, y: int, n: nat)
    requires x <= y
    ensures Shr(x, n) <= Shr(y, n)
    decreases n
  {
    if n > 0 {
      ShrMonotone(x / 2, y / 2, n - 1);
    }
  }

  /** Bitwise or, bit by bit. */
  function BitOr(a: nat, b: nat): nat {
    if a == 0 && b == 0 then 0
    else (if a % 2 == 1 || b % 2 == 1 then 1 else 0) + 2 * BitOr(a / 2, b / 2)
  }

  /** Oring in a value above the occupied bits is addition. */
  lemma {:induction false} BitOrDisjoint(a: nat, b: nat, n: nat)
    requires a < Pow2(n)
    ensures BitOr(a, Shl(b, n)) == a + Shl(b, n)
    decreases n
  {
    if n == 0 {
      BitOrZero(b);
    } else {
      BitOrDisjoint(a / 2, b, n - 1);
    }
  }

  /** low below and high from bit m on fit into m + n bits. */
  lemma {:induction false} ConcatBelow(low: nat, m: nat, high: nat, n: nat)
    requires low < Pow2(m) && high < Pow2(n)
    ensures low + Shl(high, m) < Pow2(m + n)
    decreases m
  {
    if m > 0 {
      ConcatBelow(low / 2, m - 1, high, n);
    }
  }

  lemma {:induction false} BitOrZero(b: nat)
    ensures BitOr(0, b) == b
  {
    if b > 0 {
      BitOrZero(b / 2);
    }
  }

  lemma {:induction false} BitOrComm(a: nat, b: nat)
    ensures BitOr(a, b) == BitOr(b, a)
  {
    if a > 0 || b > 0 {
      BitOrComm(a / 2, b / 2);
    }
  }
}
