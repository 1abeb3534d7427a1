/**
 * The few pieces of Java's integer semantics and of `ThreadLocalRandom` that the
 * core relies on, written out over unbounded integers.
 */
module JavaLang {
  import opened Wrappers

  /** The exceptions the core throws. */
  datatype Exception = IllegalArgumentException(message: string)

  const INT_MIN: int := -0x8000_0000
  const INT_MAX: int := 0x7fff_ffff

  predicate IsInt32(v: int) { INT_MIN <= v <= INT_MAX }

  /** Java's `int` addition: the exact sum taken modulo 2^32 into the `int` range. */
  function Wrap32(v: int): (r: int)
    ensures IsInt32(r)
    ensures IsInt32(v) ==> r == v
    ensures (r - v) % 0x1_0000_0000 == 0
  {
    (v - INT_MIN) % 0x1_0000_0000 + INT_MIN
  }

  /** Java's narrowing of a `double` to `int`: out-of-range values stick to the nearest bound. */
  function SaturatingCast(v: int): (r: int)
    ensures IsInt32(r)
    ensures IsInt32(v) ==> r == v
    ensures v > INT_MAX ==> r == INT_MAX
    ensures v < INT_MIN ==> r == INT_MIN
  {
    if v > INT_MAX then INT_MAX else if v < INT_MIN then INT_MIN else v
  }

  /**
   * Java's `a % b`: the remainder of the division truncated toward zero, so it
   * takes the sign of `a` (Dafny's `%` is Euclidean and never negative).
   */
  function Rem(a: int, b: int): (r: int)
    requires b != 0
    ensures a >= 0 ==> 0 <= r < Abs(b)
    ensures a < 0 ==> -Abs(b) < r <= 0
    ensures r == 0 <==> a % b == 0
    ensures (a - r) % b == 0
  {
    if a >= 0 then
      assert a - a % b == b * (a / b);
      MultipleRemainder(b, a / b);
      a % b
    else
      NegatedRemainder(a, b);
      assert a + (-a) % b == b * -((-a) / b);
      MultipleRemainder(b, -((-a) / b));
      -((-a) % b)
  }

  lemma NegatedRemainder(a: int, b: int)
    requires b != 0
    ensures (-a) % b == 0 <==> a % b == 0
  {
    if (-a) % b == 0 {
      MultipleRemainder(b, -((-a) / b));
    }
    if a % b == 0 {
      MultipleRemainder(b, -(a / b));
    }
  }

  lemma MultipleRemainder(b: int, k: int)
    requires b != 0
    ensures (b * k) % b == 0
  {
    var q, r := (b * k) / b, (b * k) % b;
    assert b * k == b * q + r;
    assert r == b * (k - q);
    if k != q {
      ScaledAtLeast(b, k - q);
      assert false;
    }
  }

  function Abs(v: int): int { if v < 0 then -v else v }

  lemma ScaledAtLeast(b: int, d: int)
    requires b != 0 && d != 0
    ensures Abs(b * d) >= Abs(b)
  {
    PositiveScaledAtLeast(Abs(b), Abs(d));
    AbsProduct(b, d);
  }

  lemma PositiveScaledAtLeast(b: int, d: int)
    requires b > 0 && d > 0
    ensures b * d >= b
  {
    assert b * d == b + b * (d - 1);
    assert b * (d - 1) >= 0;
  }

  lemma AbsProduct(b: int, d: int)
    ensures Abs(b * d) == Abs(b) * Abs(d)
  {
    if b < 0 && d < 0 {
      assert b * d == (-b) * (-d);
    } else if b < 0 {
      assert b * d == -((-b) * d);
    } else if d < 0 {
      assert b * d == -(b * (-d));
    }
  }

  /**
   * `nextInt(origin, bound)` / `nextDouble(origin, bound)`: the generator's raw
   * output `seed` is reduced into the half-open range, and an empty range throws.
   */
  function NextInt(origin: int, bound: int, seed: int): (r: Result<int, Exception>)
    ensures r.Failure? <==> origin >= bound
    ensures r.Success? ==> origin <= r.value < bound
  {
    if origin >= bound then Failure(IllegalArgumentException("bound must be greater than origin"))
    else Success(origin + seed % (bound - origin))
  }

  /** Every value of a non-empty range is some draw's outcome: modelling draws by seeds loses nothing. */
  lemma NextIntReachesEveryValue(origin: int, bound: int, v: int)
    requires origin <= v < bound
    ensures NextInt(origin, bound, v - origin) == Success(v)
  {
  }
}
