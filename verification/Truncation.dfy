/** What cutting the counting laws off does to the horizontal test (probability.py): how much likelier a wider
    miss can seem because more terms are summed for it. */
module Truncation {
  import opened Prelude
  import opened Probability

  // ----- Races over more and fewer terms -----

  /** Terms past the first `n`, and a tail of at most `extra` added to each factor, add at most that tail. */
  lemma {:induction false} DotWithTail(a: seq<real>, s: seq<real>, t: seq<real>, extra: real)
    requires |a| == |s| >= |t| && extra >= 0.0 && forall k :: 0 <= k < |a| ==> a[k] >= 0.0
    requires forall k :: 0 <= k < |s| ==> s[k] <= (if k < |t| then t[k] else 0.0) + extra
    ensures Dot(a, s) <= Dot(a[..|t|], t) + extra * Sum(a)
  {
    hide Dot, Sum;
    if |t| == |a| {
      DotLifted(a, s, t, extra);
      assert a[..|t|] == a;
    } else {
      var m := |a| - 1;
      DotWithTail(a[..m], s[..m], t, extra);
      assert a[..m][..|t|] == a[..|t|];
      LastTerm(a, s);
      OneMoreTerm(a[m], s[m], extra);
      Distributes(extra, Sum(a[..m]), a[m]);
    }
  }

  lemma {:induction false} DotLifted(a: seq<real>, s: seq<real>, t: seq<real>, extra: real)
    requires |a| == |s| == |t| && forall k :: 0 <= k < |a| ==> a[k] >= 0.0 && s[k] <= t[k] + extra
    ensures Dot(a, s) <= Dot(a, t) + extra * Sum(a)
  {
    hide Dot, Sum;
    if a == [] {
      Nothing();
      assert a == s == t == [];
    } else {
      var m := |a| - 1;
      DotLifted(a[..m], s[..m], t[..m], extra);
      LastTerm(a, s);
      LastTerm(a, t);
      OneMoreTerm(a[m], s[m], t[m] + extra);
      Distributes(a[m], t[m], extra);
      Distributes(extra, Sum(a[..m]), a[m]);
    }
  }

  lemma LastTerm(a: seq<real>, s: seq<real>)
    requires |a| == |s| > 0
    ensures Dot(a, s) == Dot(a[..|a| - 1], s[..|s| - 1]) + a[|a| - 1] * s[|s| - 1]
    ensures Sum(a) == Sum(a[..|a| - 1]) + a[|a| - 1]
  {
    hide Dot, Sum;
    LastOfDot(a, s, a[..|a| - 1], s[..|s| - 1], a[|a| - 1] * s[|s| - 1]);
    LastOfSum(a);
  }

  lemma LastOfDot(a: seq<real>, s: seq<real>, a': seq<real>, s': seq<real>, last: real)
    requires |a| == |s| > 0 && a' == a[..|a| - 1] && s' == s[..|s| - 1] && last == a[|a| - 1] * s[|s| - 1]
    ensures Dot(a, s) == Dot(a', s') + last
  {
  }

  lemma LastOfSum(a: seq<real>)
    requires a != []
    ensures Sum(a) == Sum(a[..|a| - 1]) + a[|a| - 1]
  {
  }

  lemma Nothing()
    ensures Dot([], []) == 0.0 && Sum([]) == 0.0
  {
  }

  lemma OneMoreTerm(x: real, y: real, most: real)
    requires x >= 0.0 && y <= most
    ensures x * y <= x * most
  {
    ProductIsNonNegative(x, most - y);
    assert x * (most - y) == x * most - x * y;
  }

  /** Fewer terms, each with a smaller factor, sum to less. */
  lemma {:induction false} DotOfFewer(a: seq<real>, s: seq<real>, t: seq<real>)
    requires |a| == |s| >= |t| && forall k :: 0 <= k < |a| ==> a[k] >= 0.0 && s[k] >= 0.0
    requires forall k :: 0 <= k < |t| ==> t[k] <= s[k]
    ensures Dot(a[..|t|], t) <= Dot(a, s)
  {
    hide Dot, Sum;
    if |t| == |a| {
      DotOrder(a, t, s);
      assert a[..|t|] == a;
    } else {
      var m := |a| - 1;
      LastTerm(a, s);
      DotOfFewer(a[..m], s[..m], t);
      assert a[..m][..|t|] == a[..|t|];
      ProductIsNonNegative(a[m], s[m]);
    }
  }

  /** The survival of a longer law is that of its first `n` weights with the rest of its mass added. */
  lemma SurvivalOfLonger(b: seq<real>, n: nat, j: nat)
    requires SubProbability(b) && 0 < n <= |b| && j < |b|
    ensures Sum(b) - Sum(b[..n]) >= 0.0
    ensures j < n ==> Survival(b)[j] == Survival(b[..n])[j] + (Sum(b) - Sum(b[..n]))
    ensures j >= n ==> 0.0 <= Survival(b)[j] <= Sum(b) - Sum(b[..n])
  {
    hide Sum, Survival;
    assert b == b[..n] + b[n..];
    SumAppend(b[..n], b[n..]);
    SumIsNonNegative(b[n..]);
    SurvivalIsTail(b, j);
    if j < n {
      SurvivalIsTail(b[..n], j);
      assert b[j + 1..] == b[..n][j + 1..] + b[n..];
      SumAppend(b[..n][j + 1..], b[n..]);
    } else {
      assert b[n..] == b[n..j + 1] + b[j + 1..];
      SumAppend(b[n..j + 1], b[j + 1..]);
      SumIsNonNegative(b[n..j + 1]);
      SumIsNonNegative(b[j + 1..]);
    }
  }

  lemma PrefixIsLaw(b: seq<real>, n: nat)
    requires SubProbability(b) && n <= |b|
    ensures SubProbability(b[..n])
  {
    assert b == b[..n] + b[n..];
    SumAppend(b[..n], b[n..]);
    SumIsNonNegative(b[n..]);
  }

  lemma RaceIsDot(a: seq<real>, b: seq<real>)
    requires |a| == |b| > 0 && SubProbability(a) && SubProbability(b)
    ensures Race(a, b) == Dot(a, Survival(b))
  {
    RaceIsProbability(a, b);
    RaceIsDoubleSum(a, b);
  }

  /** Summing more terms cannot lower the race, and raises it by no more than the weight the second law had
      left out. */
  lemma MoreTerms(a: seq<real>, b: seq<real>, n: nat)
    requires |a| == |b| && 0 < n <= |a| && SubProbability(a) && SubProbability(b)
    ensures Race(a[..n], b[..n]) <= Race(a, b) <= Race(a[..n], b[..n]) + (Sum(b) - Sum(b[..n]))
  {
    hide Sum, Survival, Race, Dot;
    PrefixIsLaw(a, n);
    PrefixIsLaw(b, n);
    RaceIsDot(a, b);
    RaceIsDot(a[..n], b[..n]);
    var (s, t, extra) := (Survival(b), Survival(b[..n]), Sum(b) - Sum(b[..n]));
    forall j | 0 <= j < |b|
      ensures extra >= 0.0 && s[j] >= 0.0 && (j < n ==> s[j] == t[j] + extra) && (j >= n ==> s[j] <= extra)
    {
      SurvivalOfLonger(b, n, j);
      SurvivalFalls(b, j);
    }
    SurvivalOfLonger(b, n, 0);
    assert |t| == n;
    RaceOfMore(a, s, t, extra);
  }

  lemma RaceOfMore(a: seq<real>, s: seq<real>, t: seq<real>, extra: real)
    requires SubProbability(a) && |a| == |s| >= |t| && extra >= 0.0
    requires forall j :: 0 <= j < |s| ==>
      s[j] >= 0.0 && (j < |t| ==> s[j] == t[j] + extra) && (j >= |t| ==> s[j] <= extra)
    ensures Dot(a[..|t|], t) <= Dot(a, s) <= Dot(a[..|t|], t) + extra
  {
    hide Sum, Dot;
    DotWithTail(a, s, t, extra);
    DotOfFewer(a, s, t);
    ShareOf(extra, Sum(a), Dot(a, s), Dot(a[..|t|], t));
  }

  lemma ShareOf(extra: real, part: real, most: real, base: real)
    requires extra >= 0.0 && part <= 1.0 && most <= base + extra * part
    ensures most <= base + extra
  {
    ProductIsNonNegative(extra, 1.0 - part);
    assert extra * (1.0 - part) == extra - extra * part;
  }

  // ----- A wider miss -----

  /** How many terms the race for these two sums. */
  function TermsOf(l: Laws, a: real, b: real): nat {
    l.terms(Max(0.5 * a * a, 0.5 * b * b))
  }

  /** What the second law weighs among the terms summed for the wider miss and not for the nearer. */
  function Dropped(l: Laws, a: real, a': real, b: real): real
    requires Trusted(l)
  {
    var (n, n', mean) := (TermsOf(l, a, b), TermsOf(l, a', b), 0.5 * b * b);
    if n' <= n then 0.0 else Sum(l.counts(mean, n')) - Sum(l.counts(mean, n))
  }

  lemma LawsAre(l: Laws, mean: real, n: nat, k: nat)
    requires Trusted(l) && n <= k
    ensures |l.counts(mean, n)| == n && |l.counts(mean, k)| == k && l.counts(mean, k)[..n] == l.counts(mean, n)
    ensures SubProbability(l.counts(mean, k)) && SubProbability(l.counts(mean, n))
  {
    hide SubProbability, Larger, Undercuts;
    assert Extends(l.counts(mean, k), l.counts(mean, n));
  }

  lemma LawsRise(l: Laws, x: real, y: real, n: nat)
    requires Trusted(l) && x <= y
    ensures Larger(l.counts(y, n), l.counts(x, n))
  {
    hide SubProbability, Larger, Undercuts, Extends;
  }

  lemma MassGrows(l: Laws, a: real, a': real, b: real)
    requires Trusted(l)
    ensures Dropped(l, a, a', b) >= 0.0
  {
    hide Trusted, TermsOf, SubProbability, Sum;
    var (n, n', mean) := (TermsOf(l, a, b), TermsOf(l, a', b), 0.5 * b * b);
    if n' > n {
      LawsAre(l, mean, n, n');
      assert l.counts(mean, n') == l.counts(mean, n')[..n] + l.counts(mean, n')[n..];
      SumAppend(l.counts(mean, n')[..n], l.counts(mean, n')[n..]);
      WeightsAreNonNegative(l.counts(mean, n'), n);
    }
  }

  lemma WeightsAreNonNegative(s: seq<real>, n: nat)
    requires SubProbability(s) && n <= |s|
    ensures Sum(s[n..]) >= 0.0
  {
    SumIsNonNegative(s[n..]);
  }

  lemma TermsArePositive(l: Laws, a: real, b: real)
    requires Trusted(l)
    ensures TermsOf(l, a, b) > 0
  {
    hide SubProbability, Larger, Undercuts, Extends;
  }

  lemma SeriesIs(l: Laws, a: real, b: real, n: nat)
    requires Trusted(l) && n == TermsOf(l, a, b)
    ensures |l.counts(0.5 * a * a, n)| == |l.counts(0.5 * b * b, n)| == n > 0
    ensures Series(l, a, b) == Race(l.counts(0.5 * a * a, n), l.counts(0.5 * b * b, n))
  {
    hide SubProbability, Larger, Undercuts, Extends, Race;
  }

  /** A wider miss raises the series by no more than what was dropped of the second law. */
  lemma SeriesRisesByDroppedAtMost(l: Laws, a: real, a': real, b: real)
    requires Trusted(l) && 0.0 <= a <= a'
    ensures Series(l, a', b) <= Series(l, a, b) + Dropped(l, a, a', b)
  {
    hide Trusted, TermsOf, Series, Race, SubProbability, Larger, Sum;
    SquareOrder(a, a');
    var m, m', mb :| m == 0.5 * a * a && m' == 0.5 * a' * a' && mb == 0.5 * b * b;
    var (n, n') := (TermsOf(l, a, b), TermsOf(l, a', b));
    SeriesIs(l, a, b, n);
    SeriesIs(l, a', b, n');
    var (few, many) := if n <= n' then (n, n') else (n', n);
    LawsAre(l, m, few, many);
    LawsAre(l, m', few, many);
    LawsAre(l, mb, few, many);
    LawsRise(l, m, m', many);
    LargerFirstCountLowersRace(l.counts(m', many), l.counts(m, many), l.counts(mb, many));
    MoreTerms(l.counts(m, many), l.counts(mb, many), few);
    MoreTerms(l.counts(m', many), l.counts(mb, many), few);
  }

  /** Within the radius the radius alone settles how many terms are summed. */
  lemma SameTermsWithin(l: Laws, a: real, a': real, b: real)
    requires 0.0 <= a <= a' <= b
    ensures TermsOf(l, a, b) == TermsOf(l, a', b)
  {
    SquareOrder(a, b);
    SquareOrder(a', b);
  }

  lemma NothingDropped(l: Laws, a: real, a': real, b: real)
    requires Trusted(l) && TermsOf(l, a', b) <= TermsOf(l, a, b)
    ensures Dropped(l, a, a', b) == 0.0
  {
    hide Trusted, TermsOf;
  }

  lemma RatioOrder(x: real, y: real, d: real)
    requires 0.0 <= x <= y && d > 0.0
    ensures 0.0 <= x / d <= y / d
  {
    var (p, q) := (x / d, y / d);
    assert p * d == x && q * d == y;
    if p < 0.0 { ProductIsPositive(-p, d); }
    if q < p { ProductIsPositive(p - q, d); }
  }

  /** The branches of the test, in standard deviations. */
  function ByRatios(l: Laws, a: real, b: real): real
    requires Trusted(l)
  {
    if a - b > SIGMA_CUTOFF then 0.0 else if b - a > SIGMA_CUTOFF then 1.0 else Series(l, a, b)
  }

  lemma DiscByRatios(l: Laws, missNm: real, radiusNm: real, sigmaNm: real)
    requires Trusted(l) && radiusNm > 0.0 && sigmaNm > 0.0
    ensures DiscProbability(l, missNm, radiusNm, sigmaNm) == ByRatios(l, missNm / sigmaNm, radiusNm / sigmaNm)
  {
    hide Series, Trusted;
  }

  /** What was dropped, where a series is summed for the wider miss at all. */
  function DroppedBetween(l: Laws, near: real, far: real, radiusNm: real, sigmaNm: real): real
    requires Trusted(l)
  {
    if sigmaNm <= 0.0 || radiusNm <= 0.0 || far / sigmaNm - radiusNm / sigmaNm > SIGMA_CUTOFF then 0.0
    else Dropped(l, near / sigmaNm, far / sigmaNm, radiusNm / sigmaNm)
  }

  /** A wider miss seems likelier to be a loss of separation, if at all, by no more than the weight the second
      counting law has among the terms summed for the wider miss only. */
  lemma WiderMissGainsDroppedAtMost(l: Laws, near: real, far: real, radiusNm: real, sigmaNm: real)
    requires Trusted(l) && 0.0 <= near <= far
    ensures DiscProbability(l, far, radiusNm, sigmaNm)
         <= DiscProbability(l, near, radiusNm, sigmaNm) + DroppedBetween(l, near, far, radiusNm, sigmaNm)
  {
    hide Series, Trusted, TermsOf, Dropped;
    DiscIsProbability(l, near, radiusNm, sigmaNm);
    DiscIsProbability(l, far, radiusNm, sigmaNm);
    if radiusNm > 0.0 && sigmaNm > 0.0 {
      var (a, a', b) := (near / sigmaNm, far / sigmaNm, radiusNm / sigmaNm);
      RatioOrder(near, far, sigmaNm);
      DiscByRatios(l, near, radiusNm, sigmaNm);
      DiscByRatios(l, far, radiusNm, sigmaNm);
      MassGrows(l, a, a', b);
      SeriesRisesByDroppedAtMost(l, a, a', b);
      SeriesIsProbability(l, a', b);
    }
  }

  /** No more terms are summed for the wider miss, or no series at all. */
  predicate ComparablySummed(l: Laws, near: real, far: real, radiusNm: real, sigmaNm: real) {
    sigmaNm > 0.0 ==>
      var (a, a', b) := (near / sigmaNm, far / sigmaNm, radiusNm / sigmaNm);
      far <= radiusNm || a' - b > SIGMA_CUTOFF || TermsOf(l, a', b) <= TermsOf(l, a, b)
  }

  /** A wider miss is never more likely to be a loss of separation: inside the radius, past the cutoff,
      and between the two wherever no more terms are summed for it. */
  lemma WiderMissIsNoLikelier(l: Laws, near: real, far: real, radiusNm: real, sigmaNm: real)
    requires Trusted(l) && 0.0 <= near <= far && ComparablySummed(l, near, far, radiusNm, sigmaNm)
    ensures DiscProbability(l, far, radiusNm, sigmaNm) <= DiscProbability(l, near, radiusNm, sigmaNm)
  {
    hide Trusted, TermsOf, DiscProbability, Dropped;
    WiderMissGainsDroppedAtMost(l, near, far, radiusNm, sigmaNm);
    if radiusNm > 0.0 && sigmaNm > 0.0 {
      var (a, a', b) := (near / sigmaNm, far / sigmaNm, radiusNm / sigmaNm);
      if far <= radiusNm {
        RatioOrder(near, far, sigmaNm);
        RatioOrder(far, radiusNm, sigmaNm);
        SameTermsWithin(l, a, a', b);
      }
      if a' - b <= SIGMA_CUTOFF { NothingDropped(l, a, a', b); }
    }
  }

  // ----- The two tests in the units of their arguments -----

  lemma RatioSides(x: real, y: real, d: real, k: real)
    requires d > 0.0
    ensures x / d - y / d > k <==> x > y + k * d
  {
    var (p, q) := (x / d, y / d);
    assert p * d == x && q * d == y;
    if p - q > k { ProductIsPositive(p - q - k, d); } else { ProductIsNonNegative(k - (p - q), d); }
  }

  lemma MeanIs(x: real, d: real, mean: real, dd: real)
    requires d > 0.0 && dd == d * d && 2.0 * mean * dd == x * x
    ensures 0.5 * (x / d) * (x / d) == mean
  {
    var p := x / d;
    assert p * d == x;
    ProductValue(d, d, dd);
    assert p * p * dd == x * x;
    var gap := p * p - 2.0 * mean;
    assert gap * dd == p * p * dd - 2.0 * mean * dd;
    OnlyZero(gap, dd);
    assert 0.5 * p * p == 0.5 * (p * p);
  }

  lemma OnlyZero(x: real, k: real)
    requires k > 0.0 && x * k == 0.0
    ensures x == 0.0
  {
    if x > 0.0 { ProductIsPositive(x, k); }
    if x < 0.0 { ProductIsPositive(-x, k); }
  }

  /** The chance of a miss inside the radius: none or all beyond nine standard deviations, and between them that of
      the second of two independent counts exceeding the first, whose means are half the squares of miss and radius
      in standard deviations, summed over the terms the larger mean calls for. */
  lemma DiscIsRace(l: Laws, missNm: real, radiusNm: real, sigmaNm: real, meanA: real, meanB: real)
    requires Trusted(l) && radiusNm > 0.0 && sigmaNm > 0.0
    requires 2.0 * meanA * (sigmaNm * sigmaNm) == missNm * missNm
    requires 2.0 * meanB * (sigmaNm * sigmaNm) == radiusNm * radiusNm
    ensures var (p, n) := (DiscProbability(l, missNm, radiusNm, sigmaNm), l.terms(Max(meanA, meanB)));
      if missNm > radiusNm + 9.0 * sigmaNm then p == 0.0
      else if radiusNm > missNm + 9.0 * sigmaNm then p == 1.0
      else p == Exceeds(l.counts(meanA, n), l.counts(meanB, n))
  {
    hide Trusted, Series, Exceeds, DiscProbability;
    DiscByRatios(l, missNm, radiusNm, sigmaNm);
    RatioSides(missNm, radiusNm, sigmaNm, SIGMA_CUTOFF);
    RatioSides(radiusNm, missNm, sigmaNm, SIGMA_CUTOFF);
    MeanIs(missNm, sigmaNm, meanA, sigmaNm * sigmaNm);
    MeanIs(radiusNm, sigmaNm, meanB, sigmaNm * sigmaNm);
    SeriesByMeans(l, missNm / sigmaNm, radiusNm / sigmaNm, meanA, meanB);
  }

  lemma SeriesByMeans(l: Laws, a: real, b: real, meanA: real, meanB: real)
    requires Trusted(l) && meanA == 0.5 * a * a && meanB == 0.5 * b * b
    ensures var n := l.terms(Max(meanA, meanB)); Series(l, a, b) == Exceeds(l.counts(meanA, n), l.counts(meanB, n))
  {
    hide Trusted, Series, Exceeds, SubProbability, Race;
    var n := TermsOf(l, a, b);
    SeriesIs(l, a, b, n);
    LawsAre(l, meanA, n, n);
    LawsAre(l, meanB, n, n);
    RaceIsProbability(l.counts(meanA, n), l.counts(meanB, n));
  }

  /** The chance of an altitude difference inside the standard: that of a normal variable between the two ends of
      the band, in standard deviations. */
  lemma BandIsBetween(l: Laws, offsetFt: real, halfWidthFt: real, sigmaFt: real, upper: real, lower: real)
    requires Trusted(l) && halfWidthFt > 0.0 && sigmaFt > 0.0
    requires offsetFt + upper * sigmaFt == halfWidthFt && offsetFt + lower * sigmaFt == -halfWidthFt
    ensures BandProbability(l, offsetFt, halfWidthFt, sigmaFt) == l.normalCdf(upper) - l.normalCdf(lower)
  {
    hide SubProbability, Larger, Extends, Undercuts;
    QuotientIs(halfWidthFt - offsetFt, sigmaFt, upper);
    QuotientIs(-halfWidthFt - offsetFt, sigmaFt, lower);
    assert (upper - lower) * sigmaFt == 2.0 * halfWidthFt;
    if upper <= lower { ProductIsNonNegative(lower - upper, sigmaFt); }
    assert lower < upper;
    assert l.normalCdf(lower) < l.normalCdf(upper);
  }

  lemma QuotientIs(x: real, d: real, q: real)
    requires d > 0.0 && q * d == x
    ensures x / d == q
  {
    var r := x / d;
    assert r * d == x;
    assert (r - q) * d == 0.0;
    OnlyZero(r - q, d);
  }
}
