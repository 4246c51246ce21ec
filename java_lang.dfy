/** The few facts about Java's primitive arithmetic that the game's code relies on:
    32-bit `int` wrap-around, `int` division (which truncates toward zero), the `(int)`
    cast of a float, `Objects.hash` over `Integer` arguments, and the float sentinels. */
module JavaLang {

  const INT_MIN: int := -0x8000_0000
  const INT_MAX: int := 0x7FFF_FFFF
  const INT_RANGE: int := 0x1_0000_0000

  type Int32 = n: int | -0x8000_0000 <= n <= 0x7FFF_FFFF

  /** The value an `int` holds when an exact result n is wrapped to 32 bits (two's complement). */
  function Wrap32(n: int): (r: Int32)
    ensures (r - n) % INT_RANGE == 0
    ensures INT_MIN <= n <= INT_MAX ==> r == n
  {
    var a := n - INT_MIN;
    assert a == INT_RANGE * (a / INT_RANGE) + a % INT_RANGE;
    a % INT_RANGE + INT_MIN
  }

  /** `n++` on an `int`: one more, except that the largest value wraps to the smallest. */
  function Increment(n: Int32): (r: Int32)
    ensures n < INT_MAX ==> r == n + 1
    ensures n == INT_MAX ==> r == INT_MIN
  {
    if n == INT_MAX then INT_MIN else n + 1
  }

  /** `n++` is the 32-bit wrap of n + 1. */
  lemma IncrementWraps(n: Int32)
    ensures Increment(n) == Wrap32(n + 1)
  {
    if n == INT_MAX {
      assert (INT_MIN - (n + 1)) % INT_RANGE == 0 by {
        assert INT_MIN - (n + 1) == -INT_RANGE;
      }
      WrapCongruent(INT_MIN, n + 1);
    }
  }

  /** Euclidean remainders agree on numbers that differ by a multiple of the modulus. */
  lemma {:induction false} ModShift(a: int, k: int)
    ensures (a + INT_RANGE * k) % INT_RANGE == a % INT_RANGE
  {
    var q, r := a / INT_RANGE, a % INT_RANGE;
    assert a == INT_RANGE * q + r && 0 <= r < INT_RANGE;
    assert a + INT_RANGE * k == INT_RANGE * (q + k) + r;
  }

  /** Two results that agree modulo 2^32 wrap to the same `int`. */
  lemma {:induction false} WrapCongruent(m: int, n: int)
    requires (m - n) % INT_RANGE == 0
    ensures Wrap32(m) == Wrap32(n)
  {
    var k := (m - n) / INT_RANGE;
    assert m - INT_MIN == (n - INT_MIN) + INT_RANGE * k;
    ModShift(n - INT_MIN, k);
  }

  /** `java.util.Arrays.hashCode` of an array of `Integer`s, which is what `Objects.hash`
      returns: start from 1 and fold `31 * result + element` with `int` arithmetic. */
  function HashCode(elems: seq<int>): Int32
    decreases |elems|
  {
    if elems == [] then 1
    else Wrap32(31 * HashCode(elems[..|elems| - 1]) + elems[|elems| - 1])
  }

  /** `Objects.hash(a, b)` for two `int` arguments. */
  function ObjectsHash2(a: int, b: int): Int32
  {
    HashCode([a, b])
  }

  /** `Objects.hash(a, b, c)` for three `int` arguments. */
  function ObjectsHash3(a: int, b: int, c: int): Int32
  {
    HashCode([a, b, c])
  }

  /** Wrapping at every step of the fold is the same as wrapping the exact polynomial once. */
  lemma ObjectsHash2Closed(a: int, b: int)
    ensures ObjectsHash2(a, b) == Wrap32(31 * (31 + a) + b)
  {
    var s := [a, b];
    assert s[..1] == [a] && [a][..0] == [];
    var h1 := HashCode([a]);
    assert HashCode([a][..0]) == 1;
    assert h1 == Wrap32(31 + a);
    assert (31 * h1 + b) - (31 * (31 + a) + b) == 31 * (h1 - (31 + a));
    MultipleOfRange(h1 - (31 + a), 31);
    WrapCongruent(31 * h1 + b, 31 * (31 + a) + b);
  }

  lemma ObjectsHash3Closed(a: int, b: int, c: int)
    ensures ObjectsHash3(a, b, c) == Wrap32(31 * (31 * (31 + a) + b) + c)
  {
    var s := [a, b, c];
    assert s[..2] == [a, b];
    var h2 := ObjectsHash2(a, b);
    ObjectsHash2Closed(a, b);
    assert (31 * h2 + c) - (31 * (31 * (31 + a) + b) + c) == 31 * (h2 - (31 * (31 + a) + b));
    MultipleOfRange(h2 - (31 * (31 + a) + b), 31);
    WrapCongruent(31 * h2 + c, 31 * (31 * (31 + a) + b) + c);
  }

  lemma {:induction false} MultipleOfRange(d: int, f: int)
    requires d % INT_RANGE == 0
    ensures (f * d) % INT_RANGE == 0
  {
    var k := d / INT_RANGE;
    assert d == INT_RANGE * k;
    assert f * d == INT_RANGE * (f * k);
    ModShift(0, f * k);
  }

  /** Java's `a / b` on `int`s for a positive divisor: the quotient truncated toward zero,
      so the remainder takes the sign of the dividend. */
  function Quot(a: int, b: int): (q: int)
    requires b > 0
    ensures a >= 0 ==> 0 <= a - q * b < b
    ensures a < 0 ==> -b < a - q * b <= 0
  {
    if a >= 0 then a / b else -((-a) / b)
  }

  /** Java's `(int)` cast of a finite float that fits an `int`: truncation toward zero. */
  function TruncToInt(r: real): (n: int)
    ensures r >= 0.0 ==> n as real <= r < n as real + 1.0
    ensures r < 0.0 ==> n as real - 1.0 < r <= n as real
  {
    if r >= 0.0 then r.Floor else -((-r).Floor)
  }

  /** A Java `float`: a finite value or one of the special values. Finite values are kept as
      exact reals; rounding to 24-bit mantissas is not modelled. */
  datatype Float = Finite(value: real) | PositiveInfinity | NegativeInfinity | NaN

  /** `Float.MAX_VALUE`, (2 - 2^-23) * 2^127. */
  const FLOAT_MAX_VALUE: real := 340282346638528859811704183484516925440.0

  /** The optional value of the project. */
  datatype Option<T> = None | Some(value: T)
}
