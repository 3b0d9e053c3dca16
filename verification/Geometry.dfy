/** What a reported conflict says about the geometry: the reported time, horizontal minimum and
    vertical minimum, their independence of argument order, and how far apart a pair must start to
    be safe for the whole lookahead (separation.py). */
module Geometry {
  import opened Prelude
  import opened Windows
  import opened Separation
  import Likelihood = Probability

  /** The parabola about its vertex, times the leading coefficient. */
  lemma DistanceAboutClosest(rel: Relative, best: real, t: real)
    requires best * SpeedSq(rel) == -Closing(rel)
    ensures DistanceSq(rel, t) == DistanceSq(rel, best) + SpeedSq(rel) * ((t - best) * (t - best))
  {
    hide SpeedSq, Closing, RangeSq, DistanceSq;
    DistanceIsQuadratic(rel, t);
    DistanceIsQuadratic(rel, best);
    var a := SpeedSq(rel);
    assert (t - best) * (t - best) == t * t - 2.0 * best * t + best * best;
    assert a * ((t - best) * (t - best)) == a * t * t - 2.0 * (best * a) * t + (best * a) * best;
    assert a * best * best == (best * a) * best;
  }

  function Clamp(x: real, low: real, high: real): real {
    Max(low, Min(high, x))
  }

  lemma ClampIsNearest(x: real, low: real, high: real, t: real)
    requires low <= t <= high
    ensures (Clamp(x, low, high) - x) * (Clamp(x, low, high) - x) <= (t - x) * (t - x)
  {
    var c := Clamp(x, low, high);
    SquareOrder(Abs(c - x), Abs(t - x));
    assert Abs(c - x) * Abs(c - x) == (c - x) * (c - x);
    assert Abs(t - x) * Abs(t - x) == (t - x) * (t - x);
  }

  /** Within a window of the lookahead, the clamped closest approach minimises horizontal distance. */
  lemma ClosestIsMinimal(cfg: Config, rel: Relative, start: real, end: real, t: real)
    requires cfg.Valid() && Resolved(rel)
    requires 0.0 <= start <= end <= cfg.lookaheadS && start <= t <= end
    ensures DistanceSq(rel, Clamp(ClosestApproach(cfg, rel), start, end)) <= DistanceSq(rel, t)
  {
    var at := Clamp(ClosestApproach(cfg, rel), start, end);
    if SpeedSq(rel) == 0.0 {
      SpeedSqFacts(rel);
      assert DistanceSq(rel, t) == RangeSq(rel) == DistanceSq(rel, at);
    } else {
      SpeedSqFacts(rel);
      var best := -Closing(rel) / SpeedSq(rel);
      assert at == Clamp(best, start, end);
      hide SpeedSq, Closing, RangeSq, DistanceSq, ClosestApproach;
      assert best * SpeedSq(rel) == -Closing(rel);
      DistanceAboutClosest(rel, best, t);
      DistanceAboutClosest(rel, best, at);
      ClampIsNearest(best, start, end, t);
      var gap := (t - best) * (t - best) - (at - best) * (at - best);
      ProductIsNonNegative(SpeedSq(rel), gap);
      assert SpeedSq(rel) * gap
        == SpeedSq(rel) * ((t - best) * (t - best)) - SpeedSq(rel) * ((at - best) * (at - best));
    }
  }

  lemma DistanceSqIsNonNegative(rel: Relative, t: real)
    ensures DistanceSq(rel, t) >= 0.0
  {
    SumOfSquaresValue(rel.e + rel.ve * t, rel.n + rel.vn * t, DistanceSq(rel, t));
  }

  /** The altitude difference does not change sign between two times. */
  predicate KeepsSide(rel: Relative, start: real, end: real) {
    (Height(rel, start) >= 0.0 && Height(rel, end) >= 0.0) || (Height(rel, start) <= 0.0 && Height(rel, end) <= 0.0)
  }

  /** A line between two times stays between its end values. */
  lemma HeightBetween(rel: Relative, start: real, end: real, t: real)
    requires start <= t <= end
    ensures Min(Height(rel, start), Height(rel, end)) <= Height(rel, t) <= Max(Height(rel, start), Height(rel, end))
  {
    if rel.valt >= 0.0 {
      ProductIsNonNegative(rel.valt, t - start);
      ProductIsNonNegative(rel.valt, end - t);
    } else {
      ProductIsNonNegative(-rel.valt, t - start);
      ProductIsNonNegative(-rel.valt, end - t);
    }
    assert rel.valt * (t - start) == rel.valt * t - rel.valt * start;
    assert rel.valt * (end - t) == rel.valt * end - rel.valt * t;
  }

  /** Where a line that changes sign is zero. */
  lemma CrossesLevel(rel: Relative, start: real, end: real) returns (t: real)
    requires start < end && !KeepsSide(rel, start, end)
    ensures start < t < end && Height(rel, t) == 0.0
  {
    var (hs, he) := (Height(rel, start), Height(rel, end));
    t := ZeroOfLine(rel.alt, rel.valt, start, end, hs, he);
  }

  /** The zero of `alt + valt * t` between two times at which it has opposite signs. */
  lemma ZeroOfLine(alt: real, valt: real, start: real, end: real, hs: real, he: real) returns (t: real)
    requires start < end && hs == alt + valt * start && he == alt + valt * end
    requires (hs < 0.0 && he > 0.0) || (hs > 0.0 && he < 0.0)
    ensures start < t < end && alt + valt * t == 0.0
  {
    var slope := if hs < 0.0 then valt else -valt;
    var level := if hs < 0.0 then -alt else alt;
    assert slope * (end - start) == (if hs < 0.0 then he - hs else hs - he) by {
      assert valt * (end - start) == he - hs;
    }
    SignOfFactor(end - start, slope, slope * (end - start));
    t := level / slope;
    assert t * slope == level;
    DivideBound(slope, start, level);
    DivideBound(slope, end, level);
  }

  /** The smaller end of the window is the vertical minimum over it exactly when the altitude
      difference keeps its side there. */
  lemma EndsAreMinimalExactlyWhenSideKept(rel: Relative, start: real, end: real)
    requires start < end
    ensures KeepsSide(rel, start, end)
       <==> forall t :: start <= t <= end
              ==> Min(Abs(Height(rel, start)), Abs(Height(rel, end))) <= Abs(Height(rel, t))
  {
    if KeepsSide(rel, start, end) {
      forall t | start <= t <= end
        ensures Min(Abs(Height(rel, start)), Abs(Height(rel, end))) <= Abs(Height(rel, t))
      {
        HeightBetween(rel, start, end, t);
        hide Height;
      }
    } else {
      var t := CrossesLevel(rel, start, end);
      hide Height;
      assert Abs(Height(rel, t)) < Min(Abs(Height(rel, start)), Abs(Height(rel, end)));
    }
  }

  /** A reported conflict that has a window, as every deterministic one has: what it claims about it. */
  lemma ReportedGeometry(cfg: Config, m: Maths, first: Track, second: Track)
    requires cfg.Valid() && IsSqrt(m.sqrt)
    requires Resolved(RelativeMotion(first, second))
    requires TestPair(cfg, m, first, second).Some?
    requires Weighed(cfg, m, first, second) ==> ConflictWindow(cfg, m, RelativeMotion(first, second)).Some?
    ensures var c := TestPair(cfg, m, first, second).value;
      var rel := RelativeMotion(first, second);
      var w := ConflictWindow(cfg, m, rel);
      && w.Some?
      && 0.0 <= w.value.0 < w.value.1 <= cfg.lookaheadS
      && (forall t :: w.value.0 < t < w.value.1 ==> Breach(cfg, rel, t))
      && w.value.0 <= c.timeToCpaS <= w.value.1
      && c.minHorizontalNm == m.sqrt(DistanceSq(rel, c.timeToCpaS))
      && c.minHorizontalNm < cfg.horizontalNm
      && (forall t :: w.value.0 <= t <= w.value.1 ==> c.minHorizontalNm <= m.sqrt(DistanceSq(rel, t)))
      && (KeepsSide(rel, w.value.0, w.value.1)
         <==> forall t :: w.value.0 <= t <= w.value.1 ==> c.minVerticalFt <= Abs(Height(rel, t)))
  {
    var rel := RelativeMotion(first, second);
    var c := TestPair(cfg, m, first, second).value;
    assert c.timeToCpaS == ReportTime(cfg, m, rel);
    assert c.minHorizontalNm == m.sqrt(DistanceSq(rel, c.timeToCpaS));
    assert c.minVerticalFt == ReportVertical(cfg, m, rel);
    hide TestPair, RelativeMotion, ClosestApproach, ConflictWindow, Height, SpeedSq, DistanceSq, Resolved,
      SnappedBreach;
    WindowExact(cfg, m, rel);
    var w := ConflictWindow(cfg, m, rel).value;
    var (start, end) := (w.0, w.1);
    forall t | start < t < end ensures Breach(cfg, rel, t) {
      assert SnappedBreach(cfg, rel, t);
      SnappedIsTrueWhenResolved(cfg, rel, t);
    }
    ClosestApproachIsInside(cfg, rel);
    var at := c.timeToCpaS;
    assert at == Clamp(ClosestApproach(cfg, rel), start, end);
    forall t | start <= t <= end
      ensures DistanceSq(rel, at) <= DistanceSq(rel, t)
      ensures m.sqrt(DistanceSq(rel, at)) <= m.sqrt(DistanceSq(rel, t))
    {
      ClosestIsMinimal(cfg, rel, start, end, t);
      DistanceSqIsNonNegative(rel, at);
      DistanceSqIsNonNegative(rel, t);
      SqrtOrder(m.sqrt, DistanceSq(rel, at), DistanceSq(rel, t));
    }
    StrictlyBelowStandard(cfg, m, rel, at, (start + end) / 2.0);
    EndsAreMinimalExactlyWhenSideKept(rel, start, end);
  }

  /** A reported conflict without a window, which only the probabilistic test reports: the time of closest approach
      in the lookahead, and how far apart the two then are. */
  lemma ReportedNearMiss(cfg: Config, m: Maths, first: Track, second: Track)
    requires cfg.Valid() && IsSqrt(m.sqrt) && Resolved(RelativeMotion(first, second))
    requires TestPair(cfg, m, first, second).Some? && ConflictWindow(cfg, m, RelativeMotion(first, second)).None?
    ensures var (c, rel) := (TestPair(cfg, m, first, second).value, RelativeMotion(first, second));
      && Weighed(cfg, m, first, second) && 0.0 <= c.timeToCpaS <= cfg.lookaheadS
      && c.minHorizontalNm == m.sqrt(DistanceSq(rel, c.timeToCpaS))
      && (forall t :: 0.0 <= t <= cfg.lookaheadS ==> c.minHorizontalNm <= m.sqrt(DistanceSq(rel, t)))
      && c.minVerticalFt == Abs(Height(rel, c.timeToCpaS))
  {
    var (c, rel) := (TestPair(cfg, m, first, second).value, RelativeMotion(first, second));
    assert c.timeToCpaS == ReportTime(cfg, m, rel) && c.minHorizontalNm == m.sqrt(DistanceSq(rel, c.timeToCpaS));
    assert c.minVerticalFt == ReportVertical(cfg, m, rel);
    hide TestPair, RelativeMotion, ConflictWindow, Height, SpeedSq, DistanceSq, Resolved, ClosestApproach;
    var at := c.timeToCpaS;
    ClosestApproachIsInside(cfg, rel);
    assert at == Clamp(ClosestApproach(cfg, rel), 0.0, cfg.lookaheadS);
    forall t | 0.0 <= t <= cfg.lookaheadS ensures m.sqrt(DistanceSq(rel, at)) <= m.sqrt(DistanceSq(rel, t)) {
      ClosestIsMinimal(cfg, rel, 0.0, cfg.lookaheadS, t);
      DistanceSqIsNonNegative(rel, at);
      DistanceSqIsNonNegative(rel, t);
      SqrtOrder(m.sqrt, DistanceSq(rel, at), DistanceSq(rel, t));
    }
  }

  /** Every reported conflict names the two, says how far apart they are now, and by what it was judged. */
  lemma ReportedNow(cfg: Config, m: Maths, first: Track, second: Track)
    requires cfg.Valid() && IsSqrt(m.sqrt) && TestPair(cfg, m, first, second).Some?
    ensures var c := TestPair(cfg, m, first, second).value;
      && c.firstId == first.id && c.secondId == second.id
      && c.firstCallsign == first.callsign && c.secondCallsign == second.callsign
      && c.currentHorizontalNm >= 0.0
      && c.currentHorizontalNm * c.currentHorizontalNm
         == (first.eastNm - second.eastNm) * (first.eastNm - second.eastNm)
            + (first.northNm - second.northNm) * (first.northNm - second.northNm)
      && c.currentVerticalFt == Abs(first.altitudeFt - second.altitudeFt)
      && c.lookaheadS == cfg.lookaheadS && c.horizontalStandardNm == cfg.horizontalNm
      && c.verticalStandardFt == cfg.verticalFt
      && (c.probability.Some? <==> Weighed(cfg, m, first, second))
  {
    hide TestPair, RelativeMotion, RangeSq, IsSqrt;
    ReportLabels(cfg, m, first, second);
    RangeNow(m, first, second);
  }

  lemma ReportLabels(cfg: Config, m: Maths, first: Track, second: Track)
    requires IsSqrt(m.sqrt) && TestPair(cfg, m, first, second).Some?
    ensures var (c, rel) := (TestPair(cfg, m, first, second).value, RelativeMotion(first, second));
      && c.firstId == first.id && c.secondId == second.id
      && c.firstCallsign == first.callsign && c.secondCallsign == second.callsign
      && c.currentHorizontalNm == m.sqrt(RangeSq(rel)) && c.currentVerticalFt == Abs(rel.alt)
      && c.lookaheadS == cfg.lookaheadS && c.horizontalStandardNm == cfg.horizontalNm
      && c.verticalStandardFt == cfg.verticalFt && (c.probability.Some? <==> Weighed(cfg, m, first, second))
  {
    hide RelativeMotion, RangeSq, DistanceSq, ReportTime, ReportVertical, ConflictWindow, Rejected, HorizontalSigma,
      VerticalSigma, Likelihood.ConflictProbability, Likelihood.Trusted, Uncertainty;
  }

  lemma RangeNow(m: Maths, first: Track, second: Track)
    requires IsSqrt(m.sqrt)
    ensures var (rel, d) := (RelativeMotion(first, second), m.sqrt(RangeSq(RelativeMotion(first, second))));
      && d >= 0.0 && Abs(rel.alt) == Abs(first.altitudeFt - second.altitudeFt)
      && d * d == (first.eastNm - second.eastNm) * (first.eastNm - second.eastNm)
                  + (first.northNm - second.northNm) * (first.northNm - second.northNm)
  {
    var rel := RelativeMotion(first, second);
    SumOfSquaresValue(rel.e, rel.n, RangeSq(rel));
    OppositeSquare(rel.e, first.eastNm - second.eastNm);
    OppositeSquare(rel.n, first.northNm - second.northNm);
  }

  lemma OppositeSquare(x: real, y: real)
    requires x == -y
    ensures x * x == y * y
  {
  }

  lemma StrictlyBelowStandard(cfg: Config, m: Maths, rel: Relative, at: real, inside: real)
    requires cfg.Valid() && IsSqrt(m.sqrt)
    requires DistanceSq(rel, at) <= DistanceSq(rel, inside) && Breach(cfg, rel, inside)
    ensures m.sqrt(DistanceSq(rel, at)) < cfg.horizontalNm
  {
    DistanceSqIsNonNegative(rel, at);
    assert DistanceSq(rel, at) < StandardSq(cfg);
    assert m.sqrt(DistanceSq(rel, at)) * m.sqrt(DistanceSq(rel, at)) == DistanceSq(rel, at);
    hide DistanceSq;
    SquareOrder(m.sqrt(DistanceSq(rel, at)), cfg.horizontalNm);
  }

  // ----- Argument order -----

  function Mirror(rel: Relative): Relative {
    Relative(-rel.e, -rel.n, -rel.ve, -rel.vn, -rel.alt, -rel.valt)
  }

  lemma MirroredCoefficients(rel: Relative)
    ensures SpeedSq(Mirror(rel)) == SpeedSq(rel)
    ensures Closing(Mirror(rel)) == Closing(rel)
    ensures RangeSq(Mirror(rel)) == RangeSq(rel)
  {
  }

  lemma MirroredAt(rel: Relative, t: real)
    ensures DistanceSq(Mirror(rel), t) == DistanceSq(rel, t)
    ensures Abs(Height(Mirror(rel), t)) == Abs(Height(rel, t))
  {
    hide SpeedSq, Closing, RangeSq;
    MirroredCoefficients(rel);
    DistanceIsQuadratic(rel, t);
    DistanceIsQuadratic(Mirror(rel), t);
    hide DistanceSq;
    assert Height(Mirror(rel), t) == -Height(rel, t);
  }

  lemma MirroredVerticalWindow(cfg: Config, rel: Relative)
    requires cfg.Valid()
    ensures VerticalWindow(cfg, Mirror(rel)) == VerticalWindow(cfg, rel)
  {
    if Abs(rel.valt) >= TOLERANCE {
      MirroredLine(rel.alt, rel.valt, cfg.verticalFt, 0.0);
      MirroredLine(rel.alt, rel.valt, -cfg.verticalFt, 0.0);
      hide Crossing;
    }
  }

  lemma MirroredReport(cfg: Config, m: Maths, rel: Relative)
    requires cfg.Valid()
    ensures ConflictWindow(cfg, m, Mirror(rel)) == ConflictWindow(cfg, m, rel)
    ensures ReportTime(cfg, m, Mirror(rel)) == ReportTime(cfg, m, rel)
    ensures ReportVertical(cfg, m, Mirror(rel)) == ReportVertical(cfg, m, rel)
  {
    hide SpeedSq, Closing, RangeSq, Height, QuadraticBelow, LinearWithin, Mirror, Overlap, StandardSq;
    MirroredCoefficients(rel);
    MirroredVerticalWindow(cfg, rel);
    hide VerticalWindow;
    var w := ConflictWindow(cfg, m, rel);
    MirroredAt(rel, ReportTime(cfg, m, rel));
    if w.Some? {
      MirroredAt(rel, w.value.0);
      MirroredAt(rel, w.value.1);
    }
  }

  lemma SwappedMotion(first: Track, second: Track)
    ensures RelativeMotion(second, first) == Mirror(RelativeMotion(first, second))
  {
  }

  lemma SigmaCommutes(m: Maths, nowA: real, nowB: real, rateA: real, rateB: real, t: real)
    ensures Sigma(m, nowA, nowB, rateA, rateB, t) == Sigma(m, nowB, nowA, rateB, rateA, t)
  {
    assert nowA * nowA + nowB * nowB == nowB * nowB + nowA * nowA;
    assert rateA * rateA + rateB * rateB == rateB * rateB + rateA * rateA;
  }

  lemma SwappedSigmas(cfg: Config, m: Maths, first: Track, second: Track, t: real)
    requires IsSqrt(m.sqrt) && Weighed(cfg, m, first, second)
    ensures VerticalSigma(m, first, second, t) == VerticalSigma(m, second, first, t)
    ensures HorizontalSigma(m, first, second, t) == HorizontalSigma(m, second, first, t)
  {
    hide Sigma;
    var (a, b) := (Uncertainty(m, first).value, Uncertainty(m, second).value);
    SigmaCommutes(m, a.altitudeFt, b.altitudeFt, a.rateFpm / 60.0, b.rateFpm / 60.0, t);
    SigmaCommutes(m, a.positionNm, b.positionNm,
                  KnotsToNmPerSecond(a.velocityKt), KnotsToNmPerSecond(b.velocityKt), t);
  }

  /** The same conflict seen with the two tracks exchanged. */
  function Swapped(c: Conflict): Conflict {
    c.(firstId := c.secondId, secondId := c.firstId,
       firstCallsign := c.secondCallsign, secondCallsign := c.firstCallsign)
  }

  lemma SwappedRejection(cfg: Config, m: Maths, first: Track, second: Track)
    requires cfg.Valid() && IsSqrt(m.sqrt)
    ensures Rejected(cfg, m, second, first) <==> Rejected(cfg, m, first, second)
  {
    hide VerticalSigma, HorizontalSigma, Uncertainty;
    if Weighed(cfg, m, first, second) { SwappedSigmas(cfg, m, first, second, cfg.lookaheadS); }
    assert VerticalSlack(cfg, m, second, first) == VerticalSlack(cfg, m, first, second);
    hide VerticalSlack;
    assert Abs(second.altitudeFt - first.altitudeFt) == Abs(first.altitudeFt - second.altitudeFt);
    assert Abs(second.vAltFpm - first.vAltFpm) == Abs(first.vAltFpm - second.vAltFpm);
  }

  lemma PairOrderIsIrrelevant(cfg: Config, m: Maths, first: Track, second: Track)
    requires cfg.Valid() && IsSqrt(m.sqrt)
    ensures TestPair(cfg, m, second, first).Some? <==> TestPair(cfg, m, first, second).Some?
    ensures TestPair(cfg, m, first, second).Some?
        ==> TestPair(cfg, m, second, first).value == Swapped(TestPair(cfg, m, first, second).value)
  {
    var rel := RelativeMotion(first, second);
    var at := ReportTime(cfg, m, rel);
    SwappedRejection(cfg, m, first, second);
    SwappedMotion(first, second);
    MirroredReport(cfg, m, rel);
    MirroredCoefficients(rel);
    MirroredAt(rel, at);
    assert Abs(Mirror(rel).alt) == Abs(rel.alt);
    if Weighed(cfg, m, first, second) { SwappedSigmas(cfg, m, first, second, at); }
    hide Rejected, RelativeMotion, ConflictWindow, ReportTime, ReportVertical, DistanceSq, RangeSq, Mirror;
    hide VerticalSigma, HorizontalSigma, Uncertainty;
  }

  // ----- How far apart is safe -----

  const MAX_CLOSING_KT: real := 1200.0

  function InteractionRadius(cfg: Config): real {
    KnotsToNmPerSecond(MAX_CLOSING_KT) * cfg.lookaheadS + cfg.horizontalNm
  }

  /** The pair closes at no more than the speed the radius is built from. */
  predicate WithinClosingLimit(first: Track, second: Track) {
    var (e, n) := (second.vEastKt - first.vEastKt, second.vNorthKt - first.vNorthKt);
    e * e + n * n <= MAX_CLOSING_KT * MAX_CLOSING_KT
  }

  predicate FurtherThan(rel: Relative, distance: real) {
    Abs(rel.e) > distance || Abs(rel.n) > distance
  }

  lemma AxisSpeedLimit(e: real, n: real, limit: real)
    requires limit >= 0.0 && e * e + n * n <= limit * limit
    ensures Abs(e) <= limit && Abs(n) <= limit
  {
    assert Abs(e) * Abs(e) == e * e && Abs(n) * Abs(n) == n * n;
    SquareOrder(Abs(e), limit);
    SquareOrder(Abs(n), limit);
  }

  /** One axis alone keeps the pair apart; `sq` is the squared distance along it at time `t`. */
  lemma AxisStaysFar(p: real, v: real, speed: real, t: real, horizon: real, apart: real, sq: real)
    requires 0.0 <= t <= horizon && apart >= 0.0 && sq == (p + v * t) * (p + v * t)
    requires Abs(v) <= speed && Abs(p) > speed * horizon + apart
    ensures sq >= apart * apart
  {
    SmallProduct(v, speed, t, horizon);
    var q := p + v * t;
    assert Abs(q) >= apart;
    SquareOrder(apart, Abs(q));
    assert Abs(q) * Abs(q) == q * q;
  }

  /** The squared distance along one axis. */
  function AxisSq(p: real, v: real, t: real): real {
    (p + v * t) * (p + v * t)
  }

  lemma DistanceParts(rel: Relative, t: real)
    ensures DistanceSq(rel, t) == AxisSq(rel.e, rel.ve, t) + AxisSq(rel.n, rel.vn, t)
    ensures AxisSq(rel.e, rel.ve, t) >= 0.0 && AxisSq(rel.n, rel.vn, t) >= 0.0
  {
    SquareValue(rel.e + rel.ve * t, AxisSq(rel.e, rel.ve, t));
    SquareValue(rel.n + rel.vn * t, AxisSq(rel.n, rel.vn, t));
  }

  lemma FarStaysFar(cfg: Config, rel: Relative, t: real)
    requires cfg.Valid() && 0.0 <= t <= cfg.lookaheadS
    requires Abs(rel.ve) <= KnotsToNmPerSecond(MAX_CLOSING_KT) && Abs(rel.vn) <= KnotsToNmPerSecond(MAX_CLOSING_KT)
    requires FurtherThan(rel, InteractionRadius(cfg))
    ensures DistanceSq(rel, t) >= StandardSq(cfg)
  {
    hide DistanceSq, KnotsToNmPerSecond, AxisSq, StandardSq, InteractionRadius;
    DistanceParts(rel, t);
    if Abs(rel.e) > InteractionRadius(cfg) {
      AxisBeyondRadius(cfg, rel.e, rel.ve, t);
    } else {
      AxisBeyondRadius(cfg, rel.n, rel.vn, t);
    }
  }

  lemma AxisBeyondRadius(cfg: Config, p: real, v: real, t: real)
    requires cfg.Valid() && 0.0 <= t <= cfg.lookaheadS
    requires Abs(v) <= KnotsToNmPerSecond(MAX_CLOSING_KT) && Abs(p) > InteractionRadius(cfg)
    ensures AxisSq(p, v, t) >= StandardSq(cfg)
  {
    hide KnotsToNmPerSecond;
    AxisStaysFar(p, v, KnotsToNmPerSecond(MAX_CLOSING_KT), t, cfg.lookaheadS, cfg.horizontalNm, AxisSq(p, v, t));
  }

  /** Margin arithmetic for a pair that hardly moves: `x` and `y` are the distances along the axes and
      `drift` what a near-zero speed can cover in the lookahead. */
  lemma DriftIsNegligible(x: real, y: real, drift: real, horizon: real, apart: real)
    requires apart >= 0.0 && horizon > 0.0 && 0.0 <= drift <= horizon / 100.0
    requires x > horizon / 3.0 + apart
    ensures x * x + y * y - 2.0 * drift * (x + y) >= apart * apart
  {
    var u, w := x - drift, y - drift;
    assert u >= apart + horizon / 4.0;
    SquareOrder(apart + horizon / 4.0, u);
    SquareOrder(drift, horizon / 100.0);
    SquareIsNonNegative(w);
    ProductIsNonNegative(apart, horizon);
    ProductIsNonNegative(horizon, horizon);
    assert u * u == x * x - 2.0 * drift * x + drift * drift;
    assert w * w == y * y - 2.0 * drift * y + drift * drift;
    assert (apart + horizon / 4.0) * (apart + horizon / 4.0)
      == apart * apart + apart * horizon / 2.0 + horizon * horizon / 16.0;
    assert (horizon / 100.0) * (horizon / 100.0) == horizon * horizon / 10000.0;
    assert 2.0 * drift * (x + y) == 2.0 * drift * x + 2.0 * drift * y;
  }

  const SLOW: real := 0.000001

  lemma AxisDrift(p: real, v: real, slow: real, t: real, horizon: real)
    requires 0.0 <= t <= horizon && Abs(v) <= slow
    ensures p * v * t >= -(slow * horizon) * Abs(p)
  {
    SmallProduct(v, slow, t, horizon);
    var d := v * t;
    ProductIsNonNegative(slow * horizon - Abs(d), Abs(p));
    assert p * v * t == p * d;
    assert p * d >= -(Abs(d) * Abs(p));
    assert (slow * horizon - Abs(d)) * Abs(p) == slow * horizon * Abs(p) - Abs(d) * Abs(p);
  }

  lemma SlowDrift(rel: Relative, t: real, horizon: real)
    requires 0.0 <= t <= horizon && Abs(rel.ve) <= SLOW && Abs(rel.vn) <= SLOW
    ensures 2.0 * Closing(rel) * t >= -2.0 * (SLOW * horizon) * (Abs(rel.e) + Abs(rel.n))
  {
    AxisDrift(rel.e, rel.ve, SLOW, t, horizon);
    AxisDrift(rel.n, rel.vn, SLOW, t, horizon);
    assert 2.0 * Closing(rel) * t == 2.0 * (rel.e * rel.ve * t) + 2.0 * (rel.n * rel.vn * t);
    assert -2.0 * (SLOW * horizon) * (Abs(rel.e) + Abs(rel.n))
      == 2.0 * (-(SLOW * horizon) * Abs(rel.e)) + 2.0 * (-(SLOW * horizon) * Abs(rel.n));
  }

  /** `range` is the squared distance of a pair apart by `x` and `y` along the axes. */
  lemma FarMargin(x: real, y: real, range: real, horizon: real, apart: real)
    requires x >= 0.0 && y >= 0.0 && range == x * x + y * y && horizon > 0.0 && apart >= 0.0
    requires x > horizon / 3.0 + apart || y > horizon / 3.0 + apart
    ensures range - 2.0 * (SLOW * horizon) * (x + y) >= apart * apart && range >= apart * apart
  {
    if x > horizon / 3.0 + apart {
      DriftIsNegligible(x, y, SLOW * horizon, horizon, apart);
    } else {
      DriftIsNegligible(y, x, SLOW * horizon, horizon, apart);
    }
    ProductIsNonNegative(SLOW * horizon, x + y);
  }

  /** A far pair slower than the tolerance, judged by the terms the solver keeps. */
  lemma SlowFarStaysFar(cfg: Config, rel: Relative, t: real)
    requires cfg.Valid() && 0.0 <= t <= cfg.lookaheadS
    requires Abs(rel.ve) <= SLOW && Abs(rel.vn) <= SLOW && FurtherThan(rel, InteractionRadius(cfg))
    ensures 2.0 * Closing(rel) * t + RangeSq(rel) >= StandardSq(cfg)
    ensures RangeSq(rel) >= StandardSq(cfg)
  {
    assert RangeSq(rel) == Abs(rel.e) * Abs(rel.e) + Abs(rel.n) * Abs(rel.n);
    SlowDrift(rel, t, cfg.lookaheadS);
    hide Closing, RangeSq;
    assert InteractionRadius(cfg) == cfg.lookaheadS / 3.0 + cfg.horizontalNm;
    FarMargin(Abs(rel.e), Abs(rel.n), RangeSq(rel), cfg.lookaheadS, cfg.horizontalNm);
  }

  lemma SlowSnapped(a: real, b: real, c: real, t: real)
    requires Abs(a) < TOLERANCE && b * t + c >= 0.0 && c >= 0.0
    ensures SnappedQuadratic(a, b, c, t) >= 0.0
  {
    if Abs(b) < TOLERANCE { assert Snap(b) * t == 0.0; } else { assert Snap(b) == b; }
  }

  lemma FarIsNotABreach(cfg: Config, rel: Relative, t: real)
    requires cfg.Valid() && 0.0 <= t <= cfg.lookaheadS
    requires Abs(rel.ve) <= KnotsToNmPerSecond(MAX_CLOSING_KT) && Abs(rel.vn) <= KnotsToNmPerSecond(MAX_CLOSING_KT)
    requires FurtherThan(rel, InteractionRadius(cfg))
    ensures !SnappedBreach(cfg, rel, t)
  {
    SpeedSqFacts(rel);
    if SpeedSq(rel) < TOLERANCE {
      assert SLOW * SLOW == TOLERANCE;
      AxisSpeedLimit(rel.ve, rel.vn, SLOW);
      hide SpeedSq, Closing, RangeSq, StandardSq;
      SlowFarStaysFar(cfg, rel, t);
      SlowSnapped(SpeedSq(rel), 2.0 * Closing(rel), RangeSq(rel) - StandardSq(cfg), t);
      hide SnappedQuadratic;
    } else {
      hide SpeedSq, Closing, RangeSq, DistanceSq, StandardSq, SnappedQuadratic;
      FarStaysFar(cfg, rel, t);
      DistanceIsQuadratic(rel, t);
      SnappedQuadraticIsExact(SpeedSq(rel), 2.0 * Closing(rel), RangeSq(rel) - StandardSq(cfg), t);
    }
  }

  /** A pair further apart than the interaction radius along either axis is never reported. */
  lemma BeyondRadiusIsNeverReported(cfg: Config, m: Maths, first: Track, second: Track)
    requires cfg.Valid() && IsSqrt(m.sqrt) && !Weighed(cfg, m, first, second)
    requires WithinClosingLimit(first, second)
    requires FurtherThan(RelativeMotion(first, second), InteractionRadius(cfg))
    ensures TestPair(cfg, m, first, second).None?
  {
    var rel := RelativeMotion(first, second);
    AxisSpeedLimit(second.vEastKt - first.vEastKt, second.vNorthKt - first.vNorthKt, MAX_CLOSING_KT);
    assert Abs(rel.ve) <= KnotsToNmPerSecond(MAX_CLOSING_KT);
    assert Abs(rel.vn) <= KnotsToNmPerSecond(MAX_CLOSING_KT);
    hide TestPair, RelativeMotion, WithinClosingLimit, InteractionRadius, SnappedBreach;
    DecidesSnappedBreach(cfg, m, first, second);
    forall t | 0.0 <= t <= cfg.lookaheadS ensures !SnappedBreach(cfg, rel, t) {
      FarIsNotABreach(cfg, rel, t);
    }
  }
}
