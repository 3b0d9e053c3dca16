/** Small shared vocabulary: optional values and real-valued minimum, maximum and magnitude. */
module Prelude {

  datatype Option<+T> = None | Some(value: T)

  /** Track identifiers and alert keys.  They are strings in the program, and only ever compared for
      equality. */
  type Id(==, !new)

  function Lookup<K, V>(m: map<K, V>, k: K): Option<V> {
    if k in m then Some(m[k]) else None
  }

  function Abs(x: real): real {
    if x < 0.0 then -x else x
  }

  function Min(x: real, y: real): real {
    if x <= y then x else y
  }

  function Max(x: real, y: real): real {
    if x >= y then x else y
  }

  /** A square root on the non-negative reals.  The square root itself is supplied by the platform. */
  ghost predicate IsSqrt(sqrt: real -> real) {
    forall x: real :: x >= 0.0 ==> sqrt(x) >= 0.0 && sqrt(x) * sqrt(x) == x
  }

  lemma ProductIsPositive(x: real, y: real)
    requires x > 0.0 && y > 0.0
    ensures x * y > 0.0
  {
  }

  lemma ProductIsNonNegative(x: real, y: real)
    requires x >= 0.0 && y >= 0.0
    ensures x * y >= 0.0
  {
  }

  /** The sign of a product, of a square and of a sum of squares.  Each takes the value as a
      parameter: the solver rewrites a literal square compared with zero into a disequality and
      then no longer sees the square. */
  lemma ProductValue(x: real, y: real, p: real)
    requires x > 0.0 && y > 0.0 && p == x * y
    ensures p > 0.0
  {
  }

  lemma SignOfFactor(k: real, f: real, v: real)
    requires k > 0.0 && v == k * f
    ensures v >= 0.0 ==> f >= 0.0
    ensures v > 0.0 ==> f > 0.0
  {
    if f < 0.0 { ProductValue(k, -f, -v); }
  }

  lemma SquareValue(x: real, p: real)
    requires p == x * x
    ensures p >= 0.0
    ensures x != 0.0 ==> p > 0.0
  {
    if x < 0.0 {
      ProductValue(-x, -x, p);
    } else if x > 0.0 {
      ProductValue(x, x, p);
    }
  }

  lemma SumOfSquaresValue(x: real, y: real, p: real)
    requires p == x * x + y * y
    ensures p >= 0.0
    ensures x != 0.0 || y != 0.0 ==> p > 0.0
  {
    var xx, yy :| xx == x * x && yy == y * y;
    SquareValue(x, xx);
    SquareValue(y, yy);
    assert p == xx + yy;
  }

  lemma SquareIsNonNegative(x: real)
    ensures x * x >= 0.0
  {
  }

  /** Squaring is strictly increasing on the non-negative reals. */
  lemma SquareOrder(x: real, y: real)
    requires 0.0 <= x && 0.0 <= y
    ensures x < y <==> x * x < y * y
    ensures x <= y <==> x * x <= y * y
  {
    var lift := y * y - x * x;
    assert lift == (y - x) * (y + x);
    if x < y {
      ProductIsPositive(y - x, y + x);
    } else if x > y {
      ProductIsPositive(x - y, y + x);
      assert lift == -((x - y) * (y + x));
    }
  }

  lemma SqrtOrder(sqrt: real -> real, x: real, y: real)
    requires IsSqrt(sqrt) && 0.0 <= x && 0.0 <= y
    ensures sqrt(x) < sqrt(y) <==> x < y
    ensures sqrt(x) <= sqrt(y) <==> x <= y
  {
    SquareOrder(sqrt(x), sqrt(y));
  }
}
