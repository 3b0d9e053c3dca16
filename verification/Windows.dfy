/** Breach windows: when a quadratic is negative, when a line stays inside a band, and when two
    such windows meet the lookahead (separation.py). */
module Windows {
  import opened Prelude

  const TOLERANCE: real := 0.000000000001

  /** A point of the extended line, for the infinite ends of a window. */
  datatype Ext = NegInf | Fin(v: real) | PosInf

  datatype Interval = Interval(lo: Ext, hi: Ext)

  predicate Above(lo: Ext, t: real) {
    lo.NegInf? || (lo.Fin? && lo.v < t)
  }

  predicate Below(t: real, hi: Ext) {
    hi.PosInf? || (hi.Fin? && t < hi.v)
  }

  /** Membership of the open interval; nothing belongs to a missing one. */
  predicate Inside(t: real, w: Option<Interval>) {
    w.Some? && Above(w.value.lo, t) && Below(t, w.value.hi)
  }

  function Discriminant(a: real, b: real, c: real): real {
    b * b - 4.0 * a * c
  }

  /** When the line `offset + rate * t` reaches `level`. */
  function Crossing(level: real, offset: real, rate: real): real
    requires rate != 0.0
  {
    (level - offset) / rate
  }

  function QuadraticBelow(a: real, b: real, c: real, sqrt: real -> real): Option<Interval> {
    if Abs(a) < TOLERANCE then
      if Abs(b) < TOLERANCE then
        if c < 0.0 then Some(Interval(NegInf, PosInf)) else None
      else
        var root := -c / b;
        if b > 0.0 then Some(Interval(NegInf, Fin(root))) else Some(Interval(Fin(root), PosInf))
    else
      var discriminant := Discriminant(a, b, c);
      if discriminant <= 0.0 then None
      else
        var root := sqrt(discriminant);
        Some(Interval(Fin((-b - root) / (2.0 * a)), Fin((-b + root) / (2.0 * a))))
  }

  function LinearWithin(offset: real, rate: real, limit: real): Option<Interval> {
    if Abs(rate) < TOLERANCE then
      if Abs(offset) < limit then Some(Interval(NegInf, PosInf)) else None
    else
      var low := Crossing(-limit, offset, rate);
      var high := Crossing(limit, offset, rate);
      if low <= high then Some(Interval(Fin(low), Fin(high))) else Some(Interval(Fin(high), Fin(low)))
  }

  /** The larger of a lower end and a finite bound. */
  function LowerEnd(lo: Ext, bound: real): real {
    if lo.Fin? then Max(lo.v, bound) else bound
  }

  function UpperEnd(hi: Ext, bound: real): real {
    if hi.Fin? then Min(hi.v, bound) else bound
  }

  /** No window this detector builds starts at plus infinity or ends at minus infinity. */
  predicate Proper(w: Option<Interval>) {
    w.Some? ==> !w.value.lo.PosInf? && !w.value.hi.NegInf?
  }

  function Overlap(first: Option<Interval>, second: Option<Interval>, horizon: real): Option<(real, real)> {
    if first.None? || second.None? then None
    else
      var start := LowerEnd(first.value.lo, LowerEnd(second.value.lo, 0.0));
      var end := UpperEnd(first.value.hi, UpperEnd(second.value.hi, horizon));
      if end > start then Some((start, end)) else None
  }

  // ----- What the windows mean -----

  /** A coefficient below the tolerance is read as zero. */
  function Snap(x: real): real {
    if Abs(x) < TOLERANCE then 0.0 else x
  }

  /** The polynomial the solver actually decides: once the leading coefficient is read as zero,
      so may the next one be. */
  function SnappedQuadratic(a: real, b: real, c: real, t: real): real {
    if Abs(a) < TOLERANCE then Snap(b) * t + c else a * t * t + b * t + c
  }

  /** Completing the square. */
  lemma CompleteSquare(a: real, b: real, c: real, t: real)
    requires a > 0.0
    ensures a * t * t + b * t + c < 0.0 <==> (2.0 * a * t + b) * (2.0 * a * t + b) < Discriminant(a, b, c)
  {
    var y := a * t * t + b * t + c;
    var u := 2.0 * a * t + b;
    var at := a * t;
    assert u * u == 4.0 * at * at + 4.0 * at * b + b * b;
    assert at * at == a * (a * t * t);
    assert u * u == 4.0 * a * (a * t * t) + 4.0 * a * (b * t) + b * b;
    assert u * u == 4.0 * a * y + b * b - 4.0 * a * c;
    if y < 0.0 { assert a * y < 0.0; } else { assert a * y >= 0.0; }
  }

  lemma SquareBelow(u: real, r: real)
    requires r >= 0.0
    ensures u * u < r * r <==> -r < u < r
  {
    SquareOrder(Abs(u), r);
    assert Abs(u) * Abs(u) == u * u;
  }

  /** Dividing a bound by a positive number. */
  lemma DivideBound(k: real, t: real, d: real)
    requires k > 0.0
    ensures t < d / k <==> k * t < d
    ensures d / k < t <==> d < k * t
  {
    var q := d / k;
    assert q * k == d;
    assert (q - t) * k == d - k * t;
    if t < q { assert (q - t) * k > 0.0; }
    if t > q { assert (t - q) * k > 0.0; }
  }

  lemma RootBounds(a: real, b: real, root: real, t: real)
    requires a > 0.0
    ensures (-b - root) / (2.0 * a) < t < (-b + root) / (2.0 * a) <==> -root < 2.0 * a * t + b < root
  {
    DivideBound(2.0 * a, t, -b - root);
    DivideBound(2.0 * a, t, -b + root);
  }

  lemma StraightLine(b: real, c: real, t: real)
    requires b != 0.0
    ensures if b > 0.0 then t < -c / b <==> b * t + c < 0.0 else -c / b < t <==> b * t + c < 0.0
  {
    if b > 0.0 {
      DivideBound(b, t, -c);
    } else {
      DivideBound(-b, t, c);
      assert -c / b == c / -b;
    }
  }

  /** The times `QuadraticBelow` admits are those at which the polynomial it decides is negative. */
  ghost predicate DecidesAt(a: real, b: real, c: real, sqrt: real -> real, t: real) {
    && (Inside(t, QuadraticBelow(a, b, c, sqrt)) <==> SnappedQuadratic(a, b, c, t) < 0.0)
    && Proper(QuadraticBelow(a, b, c, sqrt))
  }

  lemma FlatBranch(a: real, b: real, c: real, sqrt: real -> real, t: real)
    requires Abs(a) < TOLERANCE && Abs(b) < TOLERANCE
    ensures DecidesAt(a, b, c, sqrt, t)
  {
    assert SnappedQuadratic(a, b, c, t) == c;
  }

  lemma StraightBranch(a: real, b: real, c: real, sqrt: real -> real, t: real)
    requires Abs(a) < TOLERANCE && Abs(b) >= TOLERANCE
    ensures DecidesAt(a, b, c, sqrt, t)
  {
    StraightLine(b, c, t);
    assert SnappedQuadratic(a, b, c, t) == b * t + c;
  }

  lemma CurvedBranch(a: real, b: real, c: real, sqrt: real -> real, t: real)
    requires IsSqrt(sqrt) && a >= TOLERANCE
    ensures DecidesAt(a, b, c, sqrt, t)
  {
    var d := Discriminant(a, b, c);
    CompleteSquare(a, b, c, t);
    if d <= 0.0 {
      SquareIsNonNegative(2.0 * a * t + b);
    } else {
      SquareBelow(2.0 * a * t + b, sqrt(d));
      RootBounds(a, b, sqrt(d), t);
    }
  }

  /** The window holds exactly the times at which the polynomial is negative. */
  lemma QuadraticBelowExact(a: real, b: real, c: real, sqrt: real -> real, t: real)
    requires IsSqrt(sqrt) && a > -TOLERANCE
    ensures DecidesAt(a, b, c, sqrt, t)
  {
    if a >= TOLERANCE {
      CurvedBranch(a, b, c, sqrt, t);
    } else if Abs(b) >= TOLERANCE {
      StraightBranch(a, b, c, sqrt, t);
    } else {
      FlatBranch(a, b, c, sqrt, t);
    }
  }

  /** A line that climbs is inside the band between its two crossings. */
  lemma RisingLine(offset: real, rate: real, limit: real, t: real)
    requires rate > 0.0 && limit >= 0.0
    ensures Crossing(-limit, offset, rate) <= Crossing(limit, offset, rate)
    ensures Crossing(-limit, offset, rate) < t < Crossing(limit, offset, rate)
       <==> Abs(offset + rate * t) < limit
  {
    var high := Crossing(limit, offset, rate);
    DivideBound(rate, t, -limit - offset);
    DivideBound(rate, t, limit - offset);
    DivideBound(rate, high, -limit - offset);
    assert high * rate == limit - offset;
  }

  /** Mirroring the line swaps its two crossings. */
  lemma MirroredLine(offset: real, rate: real, limit: real, t: real)
    requires rate != 0.0
    ensures Crossing(limit, -offset, -rate) == Crossing(-limit, offset, rate)
    ensures -offset + -rate * t == -(offset + rate * t)
  {
    var q := Crossing(-limit, offset, rate);
    assert q * rate == -limit - offset;
    assert (limit + offset) / -rate == q;
  }

  lemma LinearWithinExact(offset: real, rate: real, limit: real, t: real)
    requires limit >= 0.0
    ensures Inside(t, LinearWithin(offset, rate, limit)) <==> Abs(offset + Snap(rate) * t) < limit
    ensures Proper(LinearWithin(offset, rate, limit))
  {
    hide Crossing;
    if Abs(rate) < TOLERANCE {
      assert Snap(rate) * t == 0.0;
    } else if rate > 0.0 {
      assert Snap(rate) == rate;
      RisingLine(offset, rate, limit, t);
    } else {
      assert Snap(rate) == rate;
      RisingLine(-offset, -rate, limit, t);
      MirroredLine(offset, rate, limit, t);
      MirroredLine(offset, rate, -limit, t);
    }
  }

  /** Two open windows and the closed lookahead have a moment in common exactly when the overlap is
      reported, for every horizon; the times strictly between its ends belong to all three, and none
      outside its ends does. */
  lemma OverlapExact(first: Option<Interval>, second: Option<Interval>, horizon: real)
    requires Proper(first) && Proper(second)
    ensures Overlap(first, second, horizon).Some?
       <==> horizon > 0.0 && exists t :: 0.0 <= t <= horizon && Inside(t, first) && Inside(t, second)
    ensures var w := Overlap(first, second, horizon);
      w.Some? ==>
        && 0.0 <= w.value.0 < w.value.1 <= horizon
        && (forall t :: w.value.0 < t < w.value.1 ==> Inside(t, first) && Inside(t, second))
        && (forall t :: 0.0 <= t <= horizon && Inside(t, first) && Inside(t, second) ==> w.value.0 <= t <= w.value.1)
  {
    var w := Overlap(first, second, horizon);
    if w.Some? {
      var mid := (w.value.0 + w.value.1) / 2.0;
      assert w.value.0 < mid < w.value.1;
      assert Inside(mid, first) && Inside(mid, second);
    }
  }
}
