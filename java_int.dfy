/**
  Java's 32-bit `int`: its signed values, their two's-complement bit patterns,
  wrapping addition and the arithmetic right shift `>>`, and the `(int)` cast
  of a `double` that is already in range.
*/
module JavaInt {

  /** The values of a Java `int`. */
  type int32 = x: int | -0x8000_0000 <= x < 0x8000_0000

  const MIN_VALUE: int32 := -0x8000_0000
  const MAX_VALUE: int32 := 0x7fff_ffff

  /**
    The low 32 bits of an integer: the two's-complement bit pattern of the Java
    `int` that a computation with mathematical result `x` leaves behind, since
    Java's `int` addition and multiplication keep exactly those bits. Dafny's
    `%` is Euclidean, so a negative `x` gets its two's-complement pattern.
  */
  function Pattern(x: int): bv32 {
    (x % 0x1_0000_0000) as bv32
  }

  /** Reduces a mathematical integer to the Java `int` with the same low 32 bits. */
  function Wrap(x: int): (r: int32)
    ensures (r - x) % 0x1_0000_0000 == 0
    ensures MIN_VALUE <= x <= MAX_VALUE ==> r == x
  {
    (x + 0x8000_0000) % 0x1_0000_0000 - 0x8000_0000
  }

  /**
    Java's `a + b` on `int`s: wraps around on overflow. The sum of two `int`s is
    at most one period of 2^32 out of range, so one correction suffices.
  */
  function Add(a: int32, b: int32): int32 {
    if a + b > MAX_VALUE then a + b - 0x1_0000_0000
    else if a + b < MIN_VALUE then a + b + 0x1_0000_0000
    else a + b
  }

  /** Java's `a - b` on `int`s: wraps around on overflow. */
  function Sub(a: int32, b: int32): int32 {
    if a - b > MAX_VALUE then a - b - 0x1_0000_0000
    else if a - b < MIN_VALUE then a - b + 0x1_0000_0000
    else a - b
  }

  /** `Add` keeps the low 32 bits of the mathematical sum, as Java's `+` does. */
  lemma AddIsWrap(a: int32, b: int32)
    ensures Add(a, b) == Wrap(a + b)
  {
    WrapByOnePeriod(a + b);
  }

  /** `Sub` keeps the low 32 bits of the mathematical difference, as Java's `-` does. */
  lemma SubIsWrap(a: int32, b: int32)
    ensures Sub(a, b) == Wrap(a - b)
  {
    WrapByOnePeriod(a - b);
  }

  /** Within one period of 2^32 of the `int` range, wrapping is one correction. */
  lemma WrapByOnePeriod(x: int)
    requires MIN_VALUE - 0x1_0000_0000 <= x <= MAX_VALUE + 0x1_0000_0000
    ensures x > MAX_VALUE ==> Wrap(x) == x - 0x1_0000_0000
    ensures x < MIN_VALUE ==> Wrap(x) == x + 0x1_0000_0000
    ensures MIN_VALUE <= x <= MAX_VALUE ==> Wrap(x) == x
  {
    var m := x + 0x8000_0000;
    if x > MAX_VALUE {
      assert (m - 0x1_0000_0000) % 0x1_0000_0000 == m % 0x1_0000_0000 by {
        assert m - 0x1_0000_0000 == (m - 0x1_0000_0000) % 0x1_0000_0000;
      }
    }
  }

  /**
    Java's `b >> k` on an `int` bit pattern: the arithmetic shift, which copies
    the sign bit into the vacated high bits (Dafny's `>>` on `bv32` is logical).
  */
  function AShr(b: bv32, k: bv5): (r: bv32)
    ensures b < 0x8000_0000 ==> r == b >> k
    ensures b >= 0x8000_0000 ==> r | (0xffff_ffff >> k) == 0xffff_ffff
  {
    if b & 0x8000_0000 == 0 then b >> k else !((!b) >> k)
  }

  /**
    The whole value of `b >> k` on a negative `b`: the logical shift with the
    `k` vacated high bits set.
  */
  lemma AShrValue(b: bv32, k: bv5)
    ensures b >= 0x8000_0000 ==> AShr(b, k) == (b >> k) | !(0xffff_ffff >> k)
  {
  }

  /** Rounds toward zero, as Java's `(int)` cast does. */
  function Truncate(v: real): (t: int)
    ensures v >= 0.0 ==> t as real <= v < t as real + 1.0
    ensures v < 0.0 ==> t as real - 1.0 < v <= t as real
  {
    if v >= 0.0 then v.Floor else -((-v).Floor)
  }

  /** The doubles whose `(int)` cast does not saturate. */
  predicate InIntRange(v: real) {
    -2147483649.0 < v < 2147483648.0
  }

  /** Java's `(int) v` for a `double` that is in range. */
  function CastToInt(v: real): (r: int32)
    requires InIntRange(v)
    ensures -1.0 < v - r as real < 1.0
    ensures v >= 0.0 ==> r as real <= v
    ensures v <= 0.0 ==> v <= r as real
    ensures r >= 0 <==> v > -1.0
  {
    Truncate(v)
  }
}
