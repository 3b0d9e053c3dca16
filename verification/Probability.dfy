/** The probability of a conflict (probability.py): the race between two counting laws behind the
    horizontal test, and how the two tests combine. */
module Probability {
  import opened Prelude

  // ----- The series, as the program computes it -----

  function Reversed(s: seq<real>): (r: seq<real>)
    ensures |r| == |s| && forall k :: 0 <= k < |s| ==> r[k] == s[|s| - 1 - k]
  {
    if s == [] then [] else Reversed(s[1..]) + [s[0]]
  }

  function CumulativeSum(s: seq<real>): (r: seq<real>)
    ensures |r| == |s| && forall k :: 0 <= k < |s| ==> r[k] == Sum(s[..k + 1])
  {
    if s == [] then []
    else
      var before := s[..|s| - 1];
      assert forall n :: 0 < n <= |before| ==> before[..n] == s[..n];
      assert s[..|s|] == s;
      CumulativeSum(before) + [Sum(s)]
  }

  function Sum(s: seq<real>): real {
    if s == [] then 0.0 else Sum(s[..|s| - 1]) + s[|s| - 1]
  }

  function Dot(a: seq<real>, b: seq<real>): real
    requires |a| == |b|
  {
    if a == [] then 0.0 else Dot(a[..|a| - 1], b[..|b| - 1]) + a[|a| - 1] * b[|b| - 1]
  }

  /** The probability of exceeding each index, accumulated from the top. */
  function Survival(pmf: seq<real>): (r: seq<real>)
    requires pmf != []
    ensures |r| == |pmf|
  {
    Reversed(CumulativeSum(Reversed(pmf)))[1..] + [0.0]
  }

  function Clip(x: real): real {
    Min(Max(x, 0.0), 1.0)
  }

  /** The probability that the second count exceeds the first. */
  function Race(pmfA: seq<real>, pmfB: seq<real>): real
    requires |pmfA| == |pmfB| > 0
  {
    Clip(Dot(pmfA, Survival(pmfB)))
  }

  // ----- What the series means -----

  /** The sum of the first `n` values of a function. */
  function SumOver(n: nat, f: int -> real): real {
    if n == 0 then 0.0 else SumOver(n - 1, f) + f(n - 1)
  }

  /** Two independent counts: the weight of the outcomes in which the second exceeds the first. */
  function Weight(a: seq<real>, b: seq<real>, j: int, i: int): real {
    if 0 <= j < |a| && 0 <= i < |b| && i > j then a[j] * b[i] else 0.0
  }

  /** The weights of one first count, as a function of the second. */
  function Row(a: seq<real>, b: seq<real>, j: int): int -> real {
    i => Weight(a, b, j, i)
  }

  function Exceeds(a: seq<real>, b: seq<real>): real {
    SumOver(|a|, j => SumOver(|b|, Row(a, b, j)))
  }

  lemma {:induction false} SumAppend(a: seq<real>, b: seq<real>)
    ensures Sum(a + b) == Sum(a) + Sum(b)
  {
    if b == [] {
      assert a + b == a;
    } else {
      assert (a + b)[..|a + b| - 1] == a + b[..|b| - 1];
      SumAppend(a, b[..|b| - 1]);
    }
  }

  lemma {:induction false} SumReversed(s: seq<real>)
    ensures Sum(Reversed(s)) == Sum(s)
  {
    if s != [] {
      SumReversed(s[1..]);
      SumAppend(Reversed(s[1..]), [s[0]]);
      assert s == [s[0]] + s[1..];
      SumAppend([s[0]], s[1..]);
      assert Sum([s[0]]) == s[0] by { assert [s[0]][..0] == []; }
    }
  }

  /** The survival at an index is the sum of everything above it. */
  lemma SurvivalIsTail(pmf: seq<real>, j: nat)
    requires j < |pmf|
    ensures Survival(pmf)[j] == Sum(pmf[j + 1..])
  {
    var (n, rev) := (|pmf|, Reversed(pmf));
    var cumulative := CumulativeSum(rev);
    if j < n - 1 {
      assert Survival(pmf)[j] == Reversed(cumulative)[j + 1] == cumulative[n - 2 - j];
      assert rev[..n - 1 - j] == Reversed(pmf[j + 1..]);
      SumReversed(pmf[j + 1..]);
    } else {
      assert pmf[j + 1..] == [];
    }
  }

  lemma {:induction false} SumOverIs(n: nat, f: int -> real, g: int -> real)
    requires forall k :: 0 <= k < n ==> f(k) == g(k)
    ensures SumOver(n, f) == SumOver(n, g)
  {
    if n > 0 { SumOverIs(n - 1, f, g); }
  }

  /** One row of the double sum: the first count's weight times the tail above it. */
  lemma {:induction false} RowIsTail(a: seq<real>, b: seq<real>, j: nat, n: nat)
    requires j < |a| && n <= |b|
    ensures SumOver(n, Row(a, b, j)) == if n > j + 1 then a[j] * Sum(b[j + 1..n]) else 0.0
  {
    hide Sum, Row, Weight;
    if n > 0 {
      RowIsTail(a, b, j, n - 1);
      RowAt(a, b, j, n - 1);
      if n > j + 1 {
        TailGrows(b, j + 1, n);
        Distributes(a[j], if n == j + 2 then 0.0 else Sum(b[j + 1..n - 1]), b[n - 1]);
      }
    }
  }

  lemma RowAt(a: seq<real>, b: seq<real>, j: nat, i: nat)
    requires j < |a| && i < |b|
    ensures Row(a, b, j)(i) == if i > j then a[j] * b[i] else 0.0
  {
  }

  lemma Distributes(x: real, y: real, z: real)
    ensures x * (y + z) == x * y + x * z
  {
  }

  lemma TailGrows(b: seq<real>, from: nat, n: nat)
    requires from < n <= |b|
    ensures Sum(b[from..n]) == (if n == from + 1 then 0.0 else Sum(b[from..n - 1])) + b[n - 1]
  {
    assert b[from..n][..n - 1 - from] == b[from..n - 1];
    if n == from + 1 { assert b[from..n - 1] == []; }
  }

  lemma {:induction false} DotIsSumOver(a: seq<real>, s: seq<real>, n: nat)
    requires n <= |a| == |s|
    ensures Dot(a[..n], s[..n]) == SumOver(n, j => if 0 <= j < |a| then a[j] * s[j] else 0.0)
  {
    if n > 0 {
      assert a[..n][..n - 1] == a[..n - 1] && s[..n][..n - 1] == s[..n - 1];
      DotIsSumOver(a, s, n - 1);
    }
  }

  /** The reversed cumulative sum, shift and dot product are the double sum over all outcomes in which
      the second count exceeds the first. */
  lemma RaceIsDoubleSum(a: seq<real>, b: seq<real>)
    requires |a| == |b| > 0
    ensures Dot(a, Survival(b)) == Exceeds(a, b)
  {
    hide Survival, Sum;
    var (n, s) := (|a|, Survival(b));
    var (products, rows) :=
      (j => if 0 <= j < |a| then a[j] * s[j] else 0.0, j => SumOver(|b|, Row(a, b, j)));
    assert a[..n] == a && s[..n] == s;
    DotIsSumOver(a, s, n);
    forall j | 0 <= j < n ensures products(j) == rows(j) {
      SurvivalIsTail(b, j);
      RowIsTail(a, b, j, n);
      assert b[j + 1..n] == b[j + 1..];
      if n == j + 1 { NothingLeft(b[j + 1..]); }
    }
    SumOverIs(n, products, rows);
  }

  lemma NothingLeft(s: seq<real>)
    ensures s == [] ==> Sum(s) == 0.0
  {
  }

  // ----- Bounds -----

  /** A law cut off at some index: no weight is negative, and the whole is at most one. */
  ghost predicate SubProbability(pmf: seq<real>) {
    (forall k :: 0 <= k < |pmf| ==> pmf[k] >= 0.0) && Sum(pmf) <= 1.0
  }

  lemma {:induction false} SumIsNonNegative(s: seq<real>)
    requires forall k :: 0 <= k < |s| ==> s[k] >= 0.0
    ensures Sum(s) >= 0.0
  {
    if s != [] { SumIsNonNegative(s[..|s| - 1]); }
  }

  /** Survival probabilities lie between zero and one and do not increase. */
  lemma SurvivalFalls(pmf: seq<real>, j: nat)
    requires SubProbability(pmf) && j < |pmf|
    ensures 0.0 <= Survival(pmf)[j] <= 1.0
    ensures j + 1 < |pmf| ==> Survival(pmf)[j + 1] <= Survival(pmf)[j]
  {
    hide Survival;
    SurvivalIsTail(pmf, j);
    SumIsNonNegative(pmf[j + 1..]);
    assert pmf == pmf[..j + 1] + pmf[j + 1..];
    SumAppend(pmf[..j + 1], pmf[j + 1..]);
    SumIsNonNegative(pmf[..j + 1]);
    if j + 1 < |pmf| {
      SurvivalIsTail(pmf, j + 1);
      assert pmf[j + 1..] == [pmf[j + 1]] + pmf[j + 2..];
      SumAppend([pmf[j + 1]], pmf[j + 2..]);
      SumIsNonNegative([pmf[j + 1]]);
    }
  }

  lemma {:induction false} DotBounds(a: seq<real>, s: seq<real>)
    requires |a| == |s| && forall k :: 0 <= k < |a| ==> a[k] >= 0.0 && 0.0 <= s[k] <= 1.0
    ensures 0.0 <= Dot(a, s) <= Sum(a)
  {
    if a != [] {
      var n := |a| - 1;
      DotBounds(a[..n], s[..n]);
      ProductIsNonNegative(a[n], s[n]);
      ProductIsNonNegative(a[n], 1.0 - s[n]);
      assert a[n] * (1.0 - s[n]) == a[n] - a[n] * s[n];
    }
  }

  /** For laws cut off anywhere the series is already a probability: clipping changes nothing. */
  lemma RaceIsProbability(a: seq<real>, b: seq<real>)
    requires |a| == |b| > 0 && SubProbability(a) && SubProbability(b)
    ensures Race(a, b) == Exceeds(a, b) && 0.0 <= Race(a, b) <= 1.0
  {
    hide Survival, Sum, Exceeds;
    forall j | 0 <= j < |b| ensures 0.0 <= Survival(b)[j] <= 1.0 { SurvivalFalls(b, j); }
    DotBounds(a, Survival(b));
    RaceIsDoubleSum(a, b);
  }

  // ----- Stochastic order -----

  /** `larger` puts no more weight below any index than `smaller` does. */
  ghost predicate Larger(larger: seq<real>, smaller: seq<real>) {
    |larger| == |smaller| && forall n :: 0 <= n <= |larger| ==> Sum(larger[..n]) <= Sum(smaller[..n])
  }

  /** Summation by parts against a non-increasing sequence. */
  lemma {:induction false} AbelComparison(larger: seq<real>, smaller: seq<real>, s: seq<real>, n: nat)
    requires Larger(larger, smaller) && |s| == |larger| && n < |s|
    requires forall k :: 0 <= k < |s| - 1 ==> s[k + 1] <= s[k]
    ensures Dot(smaller[..n + 1], s[..n + 1]) - Dot(larger[..n + 1], s[..n + 1])
         >= s[n] * (Sum(smaller[..n + 1]) - Sum(larger[..n + 1]))
  {
    hide Dot, Sum;
    NextTerm(smaller, s, n);
    NextTerm(larger, s, n);
    var (gap, next) := (Sum(smaller[..n]) - Sum(larger[..n]), smaller[n] - larger[n]);
    assert s[n] * (gap + next) == s[n] * gap + s[n] * smaller[n] - s[n] * larger[n];
    if n == 0 {
      NoTerms(smaller, s);
      NoTerms(larger, s);
    } else {
      AbelComparison(larger, smaller, s, n - 1);
      ProductIsNonNegative(s[n - 1] - s[n], gap);
      assert (s[n - 1] - s[n]) * gap == s[n - 1] * gap - s[n] * gap;
    }
  }

  lemma NextTerm(a: seq<real>, s: seq<real>, n: nat)
    requires n < |a| == |s|
    ensures Dot(a[..n + 1], s[..n + 1]) == Dot(a[..n], s[..n]) + a[n] * s[n] && Sum(a[..n + 1]) == Sum(a[..n]) + a[n]
  {
    assert a[..n + 1][..n] == a[..n] && s[..n + 1][..n] == s[..n];
  }

  lemma NoTerms(a: seq<real>, s: seq<real>)
    requires |a| == |s|
    ensures Dot(a[..0], s[..0]) == 0.0 && Sum(a[..0]) == 0.0
  {
  }

  /** Replacing the first law by a stochastically larger one cannot raise the probability. */
  lemma LargerFirstCountLowersRace(larger: seq<real>, smaller: seq<real>, b: seq<real>)
    requires Larger(larger, smaller) && |larger| == |b| > 0
    requires SubProbability(larger) && SubProbability(smaller) && SubProbability(b)
    ensures Race(larger, b) <= Race(smaller, b)
  {
    hide Survival, Sum, Exceeds;
    var (n, s) := (|b| - 1, Survival(b));
    forall k | 0 <= k < n ensures s[k + 1] <= s[k] { SurvivalFalls(b, k); }
    AbelComparison(larger, smaller, s, n);
    SurvivalIsTail(b, n);
    NothingLeft(b[n + 1..]);
    assert larger[..n + 1] == larger && smaller[..n + 1] == smaller && s[..n + 1] == s;
    assert s[n] == 0.0;
  }

  lemma {:induction false} DotOrder(a: seq<real>, s: seq<real>, t: seq<real>)
    requires |a| == |s| == |t| && forall k :: 0 <= k < |a| ==> a[k] >= 0.0 && s[k] <= t[k]
    ensures Dot(a, s) <= Dot(a, t)
  {
    if a != [] {
      var n := |a| - 1;
      DotOrder(a[..n], s[..n], t[..n]);
      var (x, y, z) := (a[n], s[n], t[n]);
      ProductIsNonNegative(x, z - y);
      assert x * (z - y) == x * z - x * y;
      assert Dot(a, s) == Dot(a[..n], s[..n]) + x * y;
    }
  }

  /** Replacing the second law by one of the same mass that is stochastically larger cannot lower it. */
  lemma LargerSecondCountRaisesRace(a: seq<real>, larger: seq<real>, smaller: seq<real>)
    requires Larger(larger, smaller) && |larger| == |a| > 0 && Sum(larger) == Sum(smaller)
    requires SubProbability(larger) && SubProbability(smaller) && SubProbability(a)
    ensures Race(a, smaller) <= Race(a, larger)
  {
    hide Survival, Sum, Exceeds;
    forall j | 0 <= j < |a| ensures Survival(smaller)[j] <= Survival(larger)[j] {
      SurvivalIsTail(smaller, j);
      SurvivalIsTail(larger, j);
      assert smaller == smaller[..j + 1] + smaller[j + 1..] && larger == larger[..j + 1] + larger[j + 1..];
      SumAppend(smaller[..j + 1], smaller[j + 1..]);
      SumAppend(larger[..j + 1], larger[j + 1..]);
    }
    DotOrder(a, Survival(smaller), Survival(larger));
  }

  // ----- The two tests and their combination -----

  /** The counting law with a given mean and number of terms, the number of terms worth summing, and the
      normal distribution function, as the platform evaluates them. */
  datatype Laws = Laws(counts: (real, nat) -> seq<real>, terms: real -> nat, normalCdf: real -> real)

  /** Some argument takes the distribution function below any positive level. */
  ghost predicate Undercuts(l: Laws, level: real) {
    exists z :: l.normalCdf(z) < level
  }

  /** The same weights, and perhaps more of them. */
  ghost predicate Extends(longer: seq<real>, shorter: seq<real>) {
    |shorter| <= |longer| && longer[..|shorter|] == shorter
  }

  /** What is taken on trust of them: each law is a cut-off probability law of the length asked for, the same
      one however far it is cut, a larger mean gives a stochastically larger law, and the distribution function
      is symmetric, strictly increasing and vanishes towards minus infinity. */
  ghost predicate Trusted(l: Laws) {
    && (forall mean, n :: |l.counts(mean, n)| == n && SubProbability(l.counts(mean, n)))
    && (forall x, y, n :: x <= y ==> Larger(l.counts(y, n), l.counts(x, n)))
    && (forall mean, n, k :: n <= k ==> Extends(l.counts(mean, k), l.counts(mean, n)))
    && (forall top :: l.terms(top) > 0)
    && (forall z :: 0.0 <= l.normalCdf(z) <= 1.0 && l.normalCdf(-z) == 1.0 - l.normalCdf(z))
    && (forall x, y :: x < y ==> l.normalCdf(x) < l.normalCdf(y))
    && (forall level :: level > 0.0 ==> Undercuts(l, level))
  }

  /** Laws of that kind exist, so what is trusted is consistent. */
  type TrustedLaws = l: Laws | Trusted(l) witness SampleLaws()

  function SampleLaws(): (l: Laws)
    ensures Trusted(l)
  {
    SampleIsTrusted();
    Laws((mean: real, n: nat) => Zeros(n), (top: real) => 1, SampleCdf)
  }

  function Zeros(n: nat): seq<real> {
    seq(n, i => 0.0)
  }

  lemma {:induction false} ZerosSumToNothing(n: nat)
    ensures Sum(Zeros(n)) == 0.0
  {
    if n > 0 {
      assert Zeros(n)[..n - 1] == Zeros(n - 1);
      ZerosSumToNothing(n - 1);
    }
  }

  function SampleCdf(z: real): real {
    if z < 0.0 then 0.5 / (1.0 - z) else 1.0 - 0.5 / (1.0 + z)
  }

  lemma HalfOver(x: real, y: real)
    requires 1.0 <= x < y
    ensures 0.0 < 0.5 / y < 0.5 / x <= 0.5
  {
    var (p, q) := (0.5 / x, 0.5 / y);
    assert p * x == 0.5 && q * y == 0.5;
    if q <= 0.0 { ProductIsNonNegative(-q, y); }
    if p <= q { ProductIsNonNegative(q - p, x); ProductIsPositive(q, y - x); }
    if p > 0.5 { ProductIsPositive(p - 0.5, x); }
  }

  lemma SampleCdfRises(x: real, y: real)
    requires x < y
    ensures 0.0 <= SampleCdf(x) < SampleCdf(y) <= 1.0
  {
    if y < 0.0 {
      HalfOver(1.0 - y, 1.0 - x);
    } else if 0.0 <= x {
      HalfOver(1.0 + x, 1.0 + y);
    } else {
      HalfOver(1.0, 1.0 - x);
      HalfOver(1.0 + y, 2.0 + y);
    }
  }

  lemma SampleCdfVanishes(level: real) returns (z: real)
    requires level > 0.0
    ensures SampleCdf(z) < level
  {
    var half := 0.5 / level;
    assert half * level == 0.5;
    if half <= 0.0 { ProductIsNonNegative(-half, level); }
    z := -half - 1.0;
    var q := 0.5 / (1.0 - z);
    assert q * (1.0 - z) == 0.5;
    if q >= level { ProductIsNonNegative(q - level, 1.0 - z); }
    assert (q - level) * (1.0 - z) == 0.5 - level * (half + 2.0);
  }

  lemma SampleIsTrusted()
    ensures Trusted(Laws((mean: real, n: nat) => Zeros(n), (top: real) => 1, SampleCdf))
  {
    hide SampleCdf, Zeros;
    var l := Laws((mean: real, n: nat) => Zeros(n), (top: real) => 1, SampleCdf);
    forall mean, n ensures |l.counts(mean, n)| == n && SubProbability(l.counts(mean, n)) { ZerosAreALaw(n); }
    forall x, y, n | x <= y ensures Larger(l.counts(y, n), l.counts(x, n)) { ZerosAreALaw(n); }
    forall mean, n, k | n <= k ensures Extends(l.counts(mean, k), l.counts(mean, n)) { ZerosExtend(n, k); }
    forall z ensures 0.0 <= l.normalCdf(z) <= 1.0 && l.normalCdf(-z) == 1.0 - l.normalCdf(z) {
      SampleCdfRises(z, z + 1.0);
      SampleIsSymmetric(z);
    }
    forall x, y | x < y ensures l.normalCdf(x) < l.normalCdf(y) { SampleCdfRises(x, y); }
    forall level: real | level > 0.0 ensures Undercuts(l, level) {
      var z := SampleCdfVanishes(level);
      assert l.normalCdf(z) < level;
    }
  }

  lemma ZerosAreALaw(n: nat)
    ensures |Zeros(n)| == n && SubProbability(Zeros(n)) && Larger(Zeros(n), Zeros(n))
  {
    ZerosSumToNothing(n);
  }

  lemma ZerosExtend(n: nat, k: nat)
    requires n <= k
    ensures Extends(Zeros(k), Zeros(n))
  {
  }

  lemma SampleIsSymmetric(z: real)
    ensures SampleCdf(-z) == 1.0 - SampleCdf(z)
  {
  }

  const SIGMA_CUTOFF := 9.0

  /** The race for a miss of `a` and a radius of `b` standard deviations. */
  function Series(l: Laws, a: real, b: real): real
    requires Trusted(l)
  {
    var (meanA, meanB) := (0.5 * a * a, 0.5 * b * b);
    var n := l.terms(Max(meanA, meanB));
    Race(l.counts(meanA, n), l.counts(meanB, n))
  }

  lemma SeriesIsProbability(l: Laws, a: real, b: real)
    requires Trusted(l)
    ensures 0.0 <= Series(l, a, b) <= 1.0
  {
    hide Race, SubProbability, Larger, Extends;
    var (meanA, meanB) := (0.5 * a * a, 0.5 * b * b);
    var n := l.terms(Max(meanA, meanB));
    RaceIsProbability(l.counts(meanA, n), l.counts(meanB, n));
  }

  function DiscProbability(l: Laws, missNm: real, radiusNm: real, sigmaNm: real): real
    requires Trusted(l)
  {
    if radiusNm <= 0.0 then 0.0
    else if sigmaNm <= 0.0 then (if missNm < radiusNm then 1.0 else 0.0)
    else
      var (a, b) := (missNm / sigmaNm, radiusNm / sigmaNm);
      if a - b > SIGMA_CUTOFF then 0.0
      else if b - a > SIGMA_CUTOFF then 1.0
      else Series(l, a, b)
  }

  function BandProbability(l: Laws, offsetFt: real, halfWidthFt: real, sigmaFt: real): real {
    if halfWidthFt <= 0.0 then 0.0
    else if sigmaFt <= 0.0 then (if Abs(offsetFt) < halfWidthFt then 1.0 else 0.0)
    else Max(0.0, l.normalCdf((halfWidthFt - offsetFt) / sigmaFt) - l.normalCdf((-halfWidthFt - offsetFt) / sigmaFt))
  }

  function ConflictProbability(l: Laws, missNm: real, offsetFt: real, sigmaNm: real, sigmaFt: real, radiusNm: real,
                               halfWidthFt: real)
    : real
    requires Trusted(l)
  {
    var horizontal := DiscProbability(l, missNm, radiusNm, sigmaNm);
    if horizontal <= 0.0 then 0.0 else horizontal * BandProbability(l, offsetFt, halfWidthFt, sigmaFt)
  }

  lemma DiscIsProbability(l: Laws, missNm: real, radiusNm: real, sigmaNm: real)
    requires Trusted(l)
    ensures 0.0 <= DiscProbability(l, missNm, radiusNm, sigmaNm) <= 1.0
  {
    hide Series, Trusted;
    if radiusNm > 0.0 && sigmaNm > 0.0 { SeriesIsProbability(l, missNm / sigmaNm, radiusNm / sigmaNm); }
  }

  lemma BandIsProbability(l: Laws, offsetFt: real, halfWidthFt: real, sigmaFt: real)
    requires Trusted(l)
    ensures 0.0 <= BandProbability(l, offsetFt, halfWidthFt, sigmaFt) <= 1.0
  {
    hide SubProbability, Larger, Extends;
    if halfWidthFt > 0.0 && sigmaFt > 0.0 {
      var (upper, lower) := ((halfWidthFt - offsetFt) / sigmaFt, (-halfWidthFt - offsetFt) / sigmaFt);
      assert 0.0 <= l.normalCdf(upper) <= 1.0 && 0.0 <= l.normalCdf(lower) <= 1.0;
    }
  }

  lemma SomeTailIsLeft(l: Laws, z: real)
    requires Trusted(l)
    ensures l.normalCdf(z) > 0.0
  {
    hide SubProbability, Larger, Extends, Undercuts;
    assert 0.0 <= l.normalCdf(z - 1.0) < l.normalCdf(z);
  }

  lemma PastTheCutoff(excess: real, sigma: real)
    requires sigma > 0.0 && excess >= SIGMA_CUTOFF * sigma
    ensures -excess / sigma <= -SIGMA_CUTOFF
  {
    var ratio := -excess / sigma;
    assert ratio * sigma == -excess;
    if ratio > -SIGMA_CUTOFF { ProductIsPositive(ratio + SIGMA_CUTOFF, sigma); }
  }

  /** Beyond the cutoff the band is not impossible, but less likely than the normal tail there. */
  lemma BandBeyondCutoff(l: Laws, offsetFt: real, halfWidthFt: real, sigmaFt: real)
    requires Trusted(l) && sigmaFt >= 0.0 && offsetFt >= 0.0 && offsetFt >= halfWidthFt + SIGMA_CUTOFF * sigmaFt
    ensures BandProbability(l, offsetFt, halfWidthFt, sigmaFt) < l.normalCdf(-SIGMA_CUTOFF)
  {
    hide SubProbability, Larger, Extends, Undercuts;
    SomeTailIsLeft(l, -SIGMA_CUTOFF);
    if halfWidthFt > 0.0 && sigmaFt > 0.0 {
      var (upper, lower) := ((halfWidthFt - offsetFt) / sigmaFt, (-halfWidthFt - offsetFt) / sigmaFt);
      PastTheCutoff(offsetFt - halfWidthFt, sigmaFt);
      assert halfWidthFt - offsetFt == -(offsetFt - halfWidthFt);
      assert upper <= -SIGMA_CUTOFF;
      SomeTailIsLeft(l, lower);
      assert l.normalCdf(upper) <= l.normalCdf(-SIGMA_CUTOFF);
    }
  }

  /** So is the conflict. */
  lemma ConflictBeyondCutoff(l: Laws, missNm: real, offsetFt: real, sigmaNm: real, sigmaFt: real, radiusNm: real,
                             halfWidthFt: real)
    requires Trusted(l) && sigmaFt >= 0.0 && offsetFt >= 0.0 && offsetFt >= halfWidthFt + SIGMA_CUTOFF * sigmaFt
    ensures ConflictProbability(l, missNm, offsetFt, sigmaNm, sigmaFt, radiusNm, halfWidthFt)
          < l.normalCdf(-SIGMA_CUTOFF)
  {
    hide ConflictProbability, BandProbability, Trusted;
    ConflictIsProbability(l, missNm, offsetFt, sigmaNm, sigmaFt, radiusNm, halfWidthFt);
    BandBeyondCutoff(l, offsetFt, halfWidthFt, sigmaFt);
  }

  /** The combined value is the product of the two tests', and so a probability no larger than the chance of the
      horizontal loss or of the vertical one. */
  lemma ConflictIsProbability(l: Laws, missNm: real, offsetFt: real, sigmaNm: real, sigmaFt: real, radiusNm: real,
                              halfWidthFt: real)
    requires Trusted(l)
    ensures var p := ConflictProbability(l, missNm, offsetFt, sigmaNm, sigmaFt, radiusNm, halfWidthFt);
      && 0.0 <= p <= 1.0 && p <= DiscProbability(l, missNm, radiusNm, sigmaNm)
      && p <= BandProbability(l, offsetFt, halfWidthFt, sigmaFt)
      && p == DiscProbability(l, missNm, radiusNm, sigmaNm) * BandProbability(l, offsetFt, halfWidthFt, sigmaFt)
  {
    hide DiscProbability, BandProbability, Trusted;
    DiscIsProbability(l, missNm, radiusNm, sigmaNm);
    BandIsProbability(l, offsetFt, halfWidthFt, sigmaFt);
    var (h, v) := (DiscProbability(l, missNm, radiusNm, sigmaNm), BandProbability(l, offsetFt, halfWidthFt, sigmaFt));
    ProductIsNonNegative(h, v);
    ProductIsNonNegative(1.0 - h, v);
    ProductIsNonNegative(h, 1.0 - v);
    assert (1.0 - h) * v == v - h * v && h * (1.0 - v) == h - h * v;
  }

  /** The sign of the altitude difference does not matter. */
  lemma OffsetSignIsIrrelevant(l: Laws, missNm: real, offsetFt: real, sigmaNm: real, sigmaFt: real, radiusNm: real,
                               halfWidthFt: real)
    requires Trusted(l)
    ensures ConflictProbability(l, missNm, offsetFt, sigmaNm, sigmaFt, radiusNm, halfWidthFt)
         == ConflictProbability(l, missNm, -offsetFt, sigmaNm, sigmaFt, radiusNm, halfWidthFt)
  {
    hide DiscProbability, BandProbability, Trusted;
    BandSignIsIrrelevant(l, offsetFt, halfWidthFt, sigmaFt);
  }

  lemma CdfIsSymmetric(l: Laws, z: real)
    requires Trusted(l)
    ensures l.normalCdf(-z) == 1.0 - l.normalCdf(z)
  {
    hide SubProbability, Larger, Extends, Undercuts;
  }

  lemma BandSignIsIrrelevant(l: Laws, offsetFt: real, halfWidthFt: real, sigmaFt: real)
    requires Trusted(l)
    ensures BandProbability(l, offsetFt, halfWidthFt, sigmaFt) == BandProbability(l, -offsetFt, halfWidthFt, sigmaFt)
  {
    hide Trusted;
    if halfWidthFt > 0.0 && sigmaFt > 0.0 {
      var (upper, lower) := ((halfWidthFt - offsetFt) / sigmaFt, (-halfWidthFt - offsetFt) / sigmaFt);
      NegatedRatio(halfWidthFt - offsetFt, sigmaFt);
      NegatedRatio(-halfWidthFt - offsetFt, sigmaFt);
      assert (halfWidthFt - -offsetFt) / sigmaFt == -lower && (-halfWidthFt - -offsetFt) / sigmaFt == -upper;
      CdfIsSymmetric(l, upper);
      CdfIsSymmetric(l, lower);
    }
  }

  lemma NegatedRatio(x: real, d: real)
    requires d > 0.0
    ensures (-x) / d == -(x / d)
  {
    assert (-x) / d * d == -x && x / d * d == x;
    assert ((-x) / d + x / d) * d == 0.0;
  }

  /** Tracks known without any uncertainty are judged as the deterministic test judges them. */
  lemma CertainTracksAreDecided(l: Laws, missNm: real, offsetFt: real, radiusNm: real, halfWidthFt: real)
    requires Trusted(l) && radiusNm > 0.0 && halfWidthFt > 0.0
    ensures ConflictProbability(l, missNm, offsetFt, 0.0, 0.0, radiusNm, halfWidthFt)
         == if missNm < radiusNm && Abs(offsetFt) < halfWidthFt then 1.0 else 0.0
  {
  }
}
