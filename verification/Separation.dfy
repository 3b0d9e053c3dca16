/** The pairwise conflict test (separation.py).  Positions are east/north nautical miles in the
    shared tangent plane, velocities knots, altitudes feet and vertical rates feet per minute. */
module Separation {
  import opened Prelude
  import opened Windows
  import Likelihood = Probability

  datatype Config = Config(
    horizontalNm: real,
    verticalFt: real,
    lookaheadS: real,
    minUpdates: int,
    probabilityThreshold: Option<real>)
  {
    /** What the alert contract demands of the standards and the lookahead, and the constructor of
        the threshold. */
    ghost predicate Valid() {
      && horizontalNm > 0.0 && verticalFt > 0.0 && lookaheadS > 0.0
      && (probabilityThreshold.Some? ==> 0.0 < probabilityThreshold.value <= 1.0)
    }
  }

  datatype Track = Track(
    id: string,
    callsign: Option<string>,
    updateCount: int,
    eastNm: real,
    northNm: real,
    vEastKt: real,
    vNorthKt: real,
    altitudeFt: real,
    vAltFpm: real,
    positionSigmaM: real,
    velocitySigmaKt: Option<real>,
    altitudeSigmaFt: Option<real>,
    rateSigmaFpm: Option<real>)

  /** The platform's square root, and the laws by which the program weighs two misses (probability.py). */
  datatype Maths = Maths(sqrt: real -> real, laws: Likelihood.TrustedLaws)

  datatype Conflict = Conflict(
    firstId: string,
    secondId: string,
    firstCallsign: Option<string>,
    secondCallsign: Option<string>,
    timeToCpaS: real,
    minHorizontalNm: real,
    minVerticalFt: real,
    currentHorizontalNm: real,
    currentVerticalFt: real,
    lookaheadS: real,
    horizontalStandardNm: real,
    verticalStandardFt: real,
    probability: Option<real>)

  /** Relative motion of the second track about the first, in nautical miles, feet and seconds. */
  datatype Relative = Relative(e: real, n: real, ve: real, vn: real, alt: real, valt: real)

  function SpeedSq(rel: Relative): real { rel.ve * rel.ve + rel.vn * rel.vn }

  function Closing(rel: Relative): real { rel.e * rel.ve + rel.n * rel.vn }

  function RangeSq(rel: Relative): real { rel.e * rel.e + rel.n * rel.n }

  function DistanceSq(rel: Relative, t: real): real {
    (rel.e + rel.ve * t) * (rel.e + rel.ve * t) + (rel.n + rel.vn * t) * (rel.n + rel.vn * t)
  }

  function Height(rel: Relative, t: real): real { rel.alt + rel.valt * t }

  /** The horizontal standard, squared to compare with squared distances. */
  function StandardSq(cfg: Config): real { cfg.horizontalNm * cfg.horizontalNm }

  function KnotsToNmPerSecond(knots: real): real {
    knots / 3600.0
  }

  function RelativeMotion(first: Track, second: Track): Relative {
    Relative(
      second.eastNm - first.eastNm,
      second.northNm - first.northNm,
      KnotsToNmPerSecond(second.vEastKt - first.vEastKt),
      KnotsToNmPerSecond(second.vNorthKt - first.vNorthKt),
      second.altitudeFt - first.altitudeFt,
      (second.vAltFpm - first.vAltFpm) / 60.0)
  }

  // ----- Uncertainty, for the probabilistic detector -----

  datatype Sigmas = Sigmas(positionNm: real, velocityKt: real, altitudeFt: real, rateFpm: real)

  function Uncertainty(m: Maths, track: Track): Option<Sigmas>
    requires IsSqrt(m.sqrt)
  {
    if track.velocitySigmaKt.None? || track.altitudeSigmaFt.None? || track.rateSigmaFpm.None? then None
    else Some(Sigmas(
      track.positionSigmaM / 1852.0 / m.sqrt(2.0),
      track.velocitySigmaKt.value,
      track.altitudeSigmaFt.value,
      track.rateSigmaFpm.value))
  }

  function Sigma(m: Maths, nowA: real, nowB: real, rateA: real, rateB: real, dt: real): real {
    m.sqrt(Max(0.0, SigmaSq(nowA, nowB, rateA, rateB, dt)))
  }

  function SigmaSq(nowA: real, nowB: real, rateA: real, rateB: real, dt: real): real {
    nowA * nowA + nowB * nowB + (rateA * rateA + rateB * rateB) * dt * dt
  }

  /** Whether this pair carries what the probabilistic detector needs. */
  predicate Weighed(cfg: Config, m: Maths, first: Track, second: Track)
    requires IsSqrt(m.sqrt)
  {
    cfg.probabilityThreshold.Some? && Uncertainty(m, first).Some? && Uncertainty(m, second).Some?
  }

  function VerticalSigma(m: Maths, first: Track, second: Track, t: real): real
    requires IsSqrt(m.sqrt) && Uncertainty(m, first).Some? && Uncertainty(m, second).Some?
  {
    var (a, b) := (Uncertainty(m, first).value, Uncertainty(m, second).value);
    Sigma(m, a.altitudeFt, b.altitudeFt, a.rateFpm / 60.0, b.rateFpm / 60.0, t)
  }

  function HorizontalSigma(m: Maths, first: Track, second: Track, t: real): real
    requires IsSqrt(m.sqrt) && Uncertainty(m, first).Some? && Uncertainty(m, second).Some?
  {
    var (a, b) := (Uncertainty(m, first).value, Uncertainty(m, second).value);
    Sigma(m, a.positionNm, b.positionNm,
          KnotsToNmPerSecond(a.velocityKt), KnotsToNmPerSecond(b.velocityKt), t)
  }

  function VerticalSlack(cfg: Config, m: Maths, first: Track, second: Track): real
    requires IsSqrt(m.sqrt)
  {
    if Weighed(cfg, m, first, second) then Likelihood.SIGMA_CUTOFF * VerticalSigma(m, first, second, cfg.lookaheadS)
    else 0.0
  }

  function Probability(cfg: Config, m: Maths, first: Track, second: Track,
                       horizontalNm: real, verticalFt: real, t: real): Option<real>
    requires IsSqrt(m.sqrt)
  {
    if !Weighed(cfg, m, first, second) then None
    else Some(Likelihood.ConflictProbability(
      m.laws, horizontalNm, verticalFt, HorizontalSigma(m, first, second, t), VerticalSigma(m, first, second, t),
      cfg.horizontalNm, cfg.verticalFt))
  }

  // ----- The pair test -----

  /** The cheap vertical rejection taken before any horizontal geometry. */
  predicate Rejected(cfg: Config, m: Maths, first: Track, second: Track)
    requires IsSqrt(m.sqrt)
  {
    var verticalNow := Abs(second.altitudeFt - first.altitudeFt);
    var closure := Abs(second.vAltFpm - first.vAltFpm) / 60.0 * cfg.lookaheadS;
    verticalNow - closure - VerticalSlack(cfg, m, first, second) >= cfg.verticalFt
  }

  function ClosestApproach(cfg: Config, rel: Relative): real {
    if SpeedSq(rel) < TOLERANCE then 0.0
    else Max(0.0, Min(cfg.lookaheadS, -Closing(rel) / SpeedSq(rel)))
  }

  function HorizontalWindow(cfg: Config, m: Maths, rel: Relative): Option<Interval> {
    QuadraticBelow(SpeedSq(rel), 2.0 * Closing(rel),
                   RangeSq(rel) - StandardSq(cfg), m.sqrt)
  }

  function VerticalWindow(cfg: Config, rel: Relative): Option<Interval> {
    LinearWithin(rel.alt, rel.valt, cfg.verticalFt)
  }

  function ConflictWindow(cfg: Config, m: Maths, rel: Relative): Option<(real, real)> {
    Overlap(HorizontalWindow(cfg, m, rel), VerticalWindow(cfg, rel), cfg.lookaheadS)
  }

  function ReportTime(cfg: Config, m: Maths, rel: Relative): real {
    var cpa := ClosestApproach(cfg, rel);
    var window := ConflictWindow(cfg, m, rel);
    if window.None? then cpa else Max(window.value.0, Min(window.value.1, cpa))
  }

  function ReportVertical(cfg: Config, m: Maths, rel: Relative): real {
    var window := ConflictWindow(cfg, m, rel);
    if window.None? then Abs(Height(rel, ReportTime(cfg, m, rel)))
    else Min(Abs(Height(rel, window.value.0)), Abs(Height(rel, window.value.1)))
  }

  /** Everything after the cheap rejection. */
  function Assess(cfg: Config, m: Maths, first: Track, second: Track): Option<Conflict>
    requires IsSqrt(m.sqrt)
  {
    var rel := RelativeMotion(first, second);
    var time := ReportTime(cfg, m, rel);
    var horizontal := m.sqrt(DistanceSq(rel, time));
    var vertical := ReportVertical(cfg, m, rel);
    var probability := Probability(cfg, m, first, second, horizontal, vertical, time);
    if probability.None? && ConflictWindow(cfg, m, rel).None? then None
    else if probability.Some?
         && probability.value < (if cfg.probabilityThreshold.Some? then cfg.probabilityThreshold.value else 0.0)
    then None
    else Some(Conflict(
      first.id, second.id, first.callsign, second.callsign,
      time, horizontal, vertical,
      m.sqrt(RangeSq(rel)), Abs(rel.alt),
      cfg.lookaheadS, cfg.horizontalNm, cfg.verticalFt, probability))
  }

  function TestPair(cfg: Config, m: Maths, first: Track, second: Track): Option<Conflict>
    requires IsSqrt(m.sqrt)
  {
    if Rejected(cfg, m, first, second) then None else Assess(cfg, m, first, second)
  }

  // ----- The specification: one moment inside both standards -----

  predicate Breach(cfg: Config, rel: Relative, t: real) {
    DistanceSq(rel, t) < StandardSq(cfg) && Abs(Height(rel, t)) < cfg.verticalFt
  }

  /** The same with coefficients below the solver's tolerance read as zero. */
  predicate SnappedBreach(cfg: Config, rel: Relative, t: real) {
    && SnappedQuadratic(SpeedSq(rel), 2.0 * Closing(rel),
                        RangeSq(rel) - StandardSq(cfg), t) < 0.0
    && Abs(rel.alt + Snap(rel.valt) * t) < cfg.verticalFt
  }

  /** Neither coefficient falls strictly between zero and the tolerance. */
  predicate Resolved(rel: Relative) {
    && (SpeedSq(rel) == 0.0 || SpeedSq(rel) >= TOLERANCE)
    && (rel.valt == 0.0 || Abs(rel.valt) >= TOLERANCE)
  }

  lemma SpeedSqFacts(rel: Relative)
    ensures SpeedSq(rel) >= 0.0
    ensures rel.ve != 0.0 || rel.vn != 0.0 ==> SpeedSq(rel) > 0.0
  {
    SumOfSquaresValue(rel.ve, rel.vn, SpeedSq(rel));
  }

  lemma ExpandOneAxis(p: real, v: real, t: real)
    ensures (p + v * t) * (p + v * t) == v * v * t * t + 2.0 * (p * v) * t + p * p
  {
    var vt := v * t;
    assert vt * vt == v * v * t * t;
    assert p * vt == p * v * t;
  }

  /** Squared separation is a quadratic in time. */
  lemma DistanceIsQuadratic(rel: Relative, t: real)
    ensures DistanceSq(rel, t) == SpeedSq(rel) * t * t + 2.0 * Closing(rel) * t + RangeSq(rel)
  {
    ExpandOneAxis(rel.e, rel.ve, t);
    ExpandOneAxis(rel.n, rel.vn, t);
    assert (rel.ve * rel.ve + rel.vn * rel.vn) * t * t == rel.ve * rel.ve * t * t + rel.vn * rel.vn * t * t;
  }

  lemma SnappedQuadraticIsExact(a: real, b: real, c: real, t: real)
    requires a >= TOLERANCE || (a == 0.0 && b == 0.0)
    ensures SnappedQuadratic(a, b, c, t) == a * t * t + b * t + c
  {
  }

  lemma SnappedIsTrueWhenResolved(cfg: Config, rel: Relative, t: real)
    requires Resolved(rel)
    ensures SnappedBreach(cfg, rel, t) <==> Breach(cfg, rel, t)
  {
    if SpeedSq(rel) == 0.0 {
      SpeedSqFacts(rel);
      assert Closing(rel) == 0.0;
    }
    hide SpeedSq, Closing, RangeSq, DistanceSq, StandardSq, SnappedQuadratic;
    DistanceIsQuadratic(rel, t);
    SnappedQuadraticIsExact(SpeedSq(rel), 2.0 * Closing(rel), RangeSq(rel) - StandardSq(cfg), t);
    assert Snap(rel.valt) == rel.valt;
  }

  lemma WindowMembership(cfg: Config, m: Maths, rel: Relative, t: real)
    requires cfg.Valid() && IsSqrt(m.sqrt)
    ensures (Inside(t, HorizontalWindow(cfg, m, rel)) && Inside(t, VerticalWindow(cfg, rel)))
       <==> SnappedBreach(cfg, rel, t)
    ensures Proper(HorizontalWindow(cfg, m, rel)) && Proper(VerticalWindow(cfg, rel))
  {
    hide SpeedSq, Closing, RangeSq, StandardSq, QuadraticBelow, LinearWithin, SnappedQuadratic;
    SpeedSqFacts(rel);
    QuadraticBelowExact(SpeedSq(rel), 2.0 * Closing(rel), RangeSq(rel) - StandardSq(cfg), m.sqrt, t);
    LinearWithinExact(rel.alt, rel.valt, cfg.verticalFt, t);
  }

  /** The window is reported exactly when some moment of the lookahead breaches both standards, and it
      holds all such moments and, but for its ends, no others. */
  lemma WindowExact(cfg: Config, m: Maths, rel: Relative)
    requires cfg.Valid() && IsSqrt(m.sqrt)
    ensures ConflictWindow(cfg, m, rel).Some?
       <==> exists t :: 0.0 <= t <= cfg.lookaheadS && SnappedBreach(cfg, rel, t)
    ensures var w := ConflictWindow(cfg, m, rel);
      w.Some? ==>
        && 0.0 <= w.value.0 < w.value.1 <= cfg.lookaheadS
        && (forall t :: w.value.0 < t < w.value.1 ==> SnappedBreach(cfg, rel, t))
        && (forall t :: 0.0 <= t <= cfg.lookaheadS && SnappedBreach(cfg, rel, t) ==> w.value.0 <= t <= w.value.1)
  {
    hide HorizontalWindow, VerticalWindow, SnappedBreach;
    var h := HorizontalWindow(cfg, m, rel);
    var v := VerticalWindow(cfg, rel);
    WindowMembership(cfg, m, rel, 0.0);
    OverlapExact(h, v, cfg.lookaheadS);
    forall t ensures (Inside(t, h) && Inside(t, v)) <==> SnappedBreach(cfg, rel, t) {
      WindowMembership(cfg, m, rel, t);
    }
  }

  // ----- The cheap rejection is exact -----

  lemma SmallProduct(v: real, bound: real, t: real, horizon: real)
    requires 0.0 <= t <= horizon && Abs(v) <= bound
    ensures Abs(v * t) <= bound * horizon
  {
    ProductIsNonNegative(bound - Abs(v), horizon);
    ProductIsNonNegative(Abs(v), horizon - t);
    assert (bound - Abs(v)) * horizon == bound * horizon - Abs(v) * horizon;
    assert Abs(v) * (horizon - t) == Abs(v) * horizon - Abs(v) * t;
    assert v * t == Abs(v) * t || v * t == -(Abs(v) * t);
    ProductIsNonNegative(Abs(v), t);
  }

  /** A rejected pair stays outside the vertical standard, by the slack it was given, throughout the
      lookahead; so does the pair with its vertical rate read as zero. */
  lemma RejectedStaysClear(cfg: Config, m: Maths, first: Track, second: Track, t: real)
    requires cfg.Valid() && IsSqrt(m.sqrt) && 0.0 <= t <= cfg.lookaheadS
    requires Rejected(cfg, m, first, second)
    ensures var rel := RelativeMotion(first, second);
      && Abs(Height(rel, t)) >= cfg.verticalFt + VerticalSlack(cfg, m, first, second)
      && Abs(rel.alt + Snap(rel.valt) * t) >= cfg.verticalFt + VerticalSlack(cfg, m, first, second)
  {
    hide VerticalSlack, Rejected, RelativeMotion, Height, Snap, Likelihood.Trusted;
    RejectedMargin(cfg, m, first, second);
    StaysClear(RelativeMotion(first, second), t, cfg.lookaheadS, cfg.verticalFt + VerticalSlack(cfg, m, first, second));
  }

  lemma StaysClear(rel: Relative, t: real, horizon: real, limit: real)
    requires 0.0 <= t <= horizon && Abs(rel.alt) - Abs(rel.valt) * horizon >= limit
    ensures Abs(Height(rel, t)) >= limit && Abs(rel.alt + Snap(rel.valt) * t) >= limit
  {
    hide Abs, Height, Snap;
    HeightIs(rel, t);
    SnapShrinks(rel.valt);
    StaysOutside(rel.alt, rel.valt, Abs(rel.valt), t, horizon, limit, Height(rel, t));
    StaysOutside(rel.alt, Snap(rel.valt), Abs(rel.valt), t, horizon, limit, rel.alt + Snap(rel.valt) * t);
  }

  lemma HeightIs(rel: Relative, t: real)
    ensures Height(rel, t) == rel.alt + rel.valt * t
  {
  }

  lemma SnapShrinks(x: real)
    ensures Abs(Snap(x)) <= Abs(x)
  {
  }

  /** The rejection test, in terms of the relative motion. */
  lemma RejectedMargin(cfg: Config, m: Maths, first: Track, second: Track)
    requires IsSqrt(m.sqrt) && Rejected(cfg, m, first, second)
    ensures var rel := RelativeMotion(first, second);
      Abs(rel.alt) - Abs(rel.valt) * cfg.lookaheadS >= cfg.verticalFt + VerticalSlack(cfg, m, first, second)
  {
    hide VerticalSlack;
    var rate := Abs(second.vAltFpm - first.vAltFpm) / 60.0;
    assert rate == Abs(RelativeMotion(first, second).valt);
  }

  lemma StaysOutside(alt: real, valt: real, rate: real, t: real, horizon: real, limit: real, h: real)
    requires 0.0 <= t <= horizon && Abs(valt) <= rate && Abs(alt) - rate * horizon >= limit && h == alt + valt * t
    ensures Abs(h) >= limit
  {
    SmallProduct(valt, rate, t, horizon);
  }

  lemma RejectedHasNoWindow(cfg: Config, m: Maths, first: Track, second: Track)
    requires cfg.Valid() && IsSqrt(m.sqrt) && VerticalSlack(cfg, m, first, second) >= 0.0
    requires Rejected(cfg, m, first, second)
    ensures ConflictWindow(cfg, m, RelativeMotion(first, second)).None?
  {
    hide VerticalSlack, Rejected, ConflictWindow, RelativeMotion, SnappedBreach;
    var rel := RelativeMotion(first, second);
    WindowExact(cfg, m, rel);
    forall t | 0.0 <= t <= cfg.lookaheadS ensures !SnappedBreach(cfg, rel, t) {
      RejectedIsNotBreached(cfg, m, first, second, t);
    }
  }

  lemma RejectedIsNotBreached(cfg: Config, m: Maths, first: Track, second: Track, t: real)
    requires cfg.Valid() && IsSqrt(m.sqrt) && VerticalSlack(cfg, m, first, second) >= 0.0
    requires Rejected(cfg, m, first, second) && 0.0 <= t <= cfg.lookaheadS
    ensures !SnappedBreach(cfg, RelativeMotion(first, second), t)
  {
    hide VerticalSlack, Rejected, RelativeMotion, Height, SnappedQuadratic;
    RejectedStaysClear(cfg, m, first, second, t);
  }

  /** Relative uncertainty grows with the time over which it is projected. */
  lemma SigmaGrows(m: Maths, nowA: real, nowB: real, rateA: real, rateB: real, t: real, later: real)
    requires IsSqrt(m.sqrt) && 0.0 <= t <= later
    ensures 0.0 <= Sigma(m, nowA, nowB, rateA, rateB, t) <= Sigma(m, nowA, nowB, rateA, rateB, later)
  {
    hide SigmaSq;
    SigmaSqGrows(nowA, nowB, rateA, rateB, t, later);
    SqrtOrder(m.sqrt, SigmaSq(nowA, nowB, rateA, rateB, t), SigmaSq(nowA, nowB, rateA, rateB, later));
  }

  lemma SigmaSqGrows(nowA: real, nowB: real, rateA: real, rateB: real, t: real, later: real)
    requires 0.0 <= t <= later
    ensures 0.0 <= SigmaSq(nowA, nowB, rateA, rateB, t) <= SigmaSq(nowA, nowB, rateA, rateB, later)
  {
    var still, rate :| still == nowA * nowA + nowB * nowB && rate == rateA * rateA + rateB * rateB;
    SumOfSquaresValue(nowA, nowB, still);
    SumOfSquaresValue(rateA, rateB, rate);
    RateGrows(rate, t, later);
    assert SigmaSq(nowA, nowB, rateA, rateB, t) == still + rate * t * t;
    assert SigmaSq(nowA, nowB, rateA, rateB, later) == still + rate * later * later;
  }

  lemma RateGrows(rate: real, t: real, later: real)
    requires rate >= 0.0 && 0.0 <= t <= later
    ensures 0.0 <= rate * t * t <= rate * later * later
  {
    ProductIsNonNegative(rate, t);
    ProductIsNonNegative(rate * t, t);
    ProductIsNonNegative(rate, later);
    ProductIsNonNegative(rate, later - t);
    ProductIsNonNegative(rate * later, later - t);
    ProductIsNonNegative(rate * (later - t), t);
    assert rate * later * (later - t) == rate * later * later - rate * later * t;
    assert rate * (later - t) * t == rate * later * t - rate * t * t;
  }

  lemma SlackIsNonNegative(cfg: Config, m: Maths, first: Track, second: Track)
    requires cfg.Valid() && IsSqrt(m.sqrt)
    ensures VerticalSlack(cfg, m, first, second) >= 0.0
  {
    if Weighed(cfg, m, first, second) {
      var (a, b) := (Uncertainty(m, first).value, Uncertainty(m, second).value);
      SigmaGrows(m, a.altitudeFt, b.altitudeFt, a.rateFpm / 60.0, b.rateFpm / 60.0, 0.0, cfg.lookaheadS);
    }
  }

  lemma ClosestApproachIsInside(cfg: Config, rel: Relative)
    requires cfg.Valid()
    ensures 0.0 <= ClosestApproach(cfg, rel) <= cfg.lookaheadS
  {
  }

  /** What a rejected pair's probability would have been. */
  lemma RejectedIsUnlikely(cfg: Config, m: Maths, first: Track, second: Track)
    requires cfg.Valid() && IsSqrt(m.sqrt) && Weighed(cfg, m, first, second) && Rejected(cfg, m, first, second)
    requires ConflictWindow(cfg, m, RelativeMotion(first, second)).None?
    ensures var rel := RelativeMotion(first, second);
      var t := ReportTime(cfg, m, rel);
      Probability(cfg, m, first, second, m.sqrt(DistanceSq(rel, t)), ReportVertical(cfg, m, rel), t).value
        < m.laws.normalCdf(-Likelihood.SIGMA_CUTOFF)
  {
    hide Rejected, RelativeMotion, ConflictWindow, DistanceSq, Height, Sigma, HorizontalSigma, ClosestApproach,
      Likelihood.ConflictProbability, Likelihood.Trusted;
    var rel := RelativeMotion(first, second);
    var t := ReportTime(cfg, m, rel);
    ClosestApproachIsInside(cfg, rel);
    RejectedStaysClear(cfg, m, first, second, t);
    var (a, b) := (Uncertainty(m, first).value, Uncertainty(m, second).value);
    SigmaGrows(m, a.altitudeFt, b.altitudeFt, a.rateFpm / 60.0, b.rateFpm / 60.0, t, cfg.lookaheadS);
    Likelihood.ConflictBeyondCutoff(m.laws, m.sqrt(DistanceSq(rel, t)), ReportVertical(cfg, m, rel),
                                    HorizontalSigma(m, first, second, t), VerticalSigma(m, first, second, t),
                                    cfg.horizontalNm, cfg.verticalFt);
  }

  /** The threshold is no lower than what the normal law leaves beyond the cutoff. */
  predicate CoversTail(cfg: Config, m: Maths) {
    cfg.probabilityThreshold.Some? ==> cfg.probabilityThreshold.value >= m.laws.normalCdf(-Likelihood.SIGMA_CUTOFF)
  }

  /** The rejection never overrules the full test, in either mode, if the threshold covers the tail. */
  lemma RejectionIsExact(cfg: Config, m: Maths, first: Track, second: Track)
    requires cfg.Valid() && IsSqrt(m.sqrt)
    requires Weighed(cfg, m, first, second) ==> CoversTail(cfg, m)
    ensures TestPair(cfg, m, first, second) == Assess(cfg, m, first, second)
  {
    hide Rejected, RelativeMotion, ConflictWindow, DistanceSq, RangeSq, ReportVertical, HorizontalSigma, VerticalSigma,
      ReportTime, Likelihood.ConflictProbability, Likelihood.Trusted, VerticalSlack;
    if Rejected(cfg, m, first, second) {
      SlackIsNonNegative(cfg, m, first, second);
      RejectedHasNoWindow(cfg, m, first, second);
      if Weighed(cfg, m, first, second) { RejectedIsUnlikely(cfg, m, first, second); }
    }
  }

  // ----- Main results for the pair test -----

  /** What the deterministic test decides, for every pair: whether one moment of the lookahead is
      inside both standards, rates below the tolerance counting as zero. */
  lemma DecidesSnappedBreach(cfg: Config, m: Maths, first: Track, second: Track)
    requires cfg.Valid() && IsSqrt(m.sqrt) && !Weighed(cfg, m, first, second)
    ensures TestPair(cfg, m, first, second).Some?
       <==> exists t :: 0.0 <= t <= cfg.lookaheadS && SnappedBreach(cfg, RelativeMotion(first, second), t)
  {
    RejectionIsExact(cfg, m, first, second);
    WindowExact(cfg, m, RelativeMotion(first, second));
    hide Rejected, ConflictWindow, RelativeMotion, ReportTime, ReportVertical, DistanceSq, RangeSq, SnappedBreach;
  }

  /** A conflict is reported exactly when both standards are breached at one same moment. */
  lemma DetectsExactlySimultaneousBreach(cfg: Config, m: Maths, first: Track, second: Track)
    requires cfg.Valid() && IsSqrt(m.sqrt) && !Weighed(cfg, m, first, second)
    requires Resolved(RelativeMotion(first, second))
    ensures TestPair(cfg, m, first, second).Some?
       <==> exists t :: 0.0 <= t <= cfg.lookaheadS && Breach(cfg, RelativeMotion(first, second), t)
  {
    var rel := RelativeMotion(first, second);
    hide Rejected, RelativeMotion, TestPair, Breach, SnappedBreach;
    DecidesSnappedBreach(cfg, m, first, second);
    forall t ensures SnappedBreach(cfg, rel, t) <==> Breach(cfg, rel, t) {
      SnappedIsTrueWhenResolved(cfg, rel, t);
    }
  }

  /** With both tracks' uncertainties known, a pair is reported exactly when its probability reaches
      the threshold: the cheap rejection never decides otherwise. */
  lemma WeighedPairsAreJudgedByProbability(cfg: Config, m: Maths, first: Track, second: Track)
    requires cfg.Valid() && IsSqrt(m.sqrt) && Weighed(cfg, m, first, second) && CoversTail(cfg, m)
    ensures var rel := RelativeMotion(first, second);
      var at := ReportTime(cfg, m, rel);
      var p := Likelihood.ConflictProbability(
        m.laws, m.sqrt(DistanceSq(rel, at)), ReportVertical(cfg, m, rel),
        HorizontalSigma(m, first, second, at), VerticalSigma(m, first, second, at), cfg.horizontalNm, cfg.verticalFt);
      TestPair(cfg, m, first, second).Some? <==> p >= cfg.probabilityThreshold.value
  {
    RejectionIsExact(cfg, m, first, second);
    hide RelativeMotion, ReportTime, ReportVertical, DistanceSq, HorizontalSigma, VerticalSigma, Rejected,
      ConflictWindow, Likelihood.ConflictProbability, Likelihood.Trusted;
  }

  /** Two tracks at one place, 1000 ft apart, whose vertical rates differ by next to nothing. */
  const LOWER := Track("a", None, 5, 0.0, 0.0, 0.0, 0.0, 30000.0, 0.0, 0.0, None, None, None)
  const UPPER := LOWER.(id := "b", altitudeFt := 31000.0, vAltFpm := -0.000000000006)
  const DEFAULTS := Config(5.0, 1000.0, 300.0, 5, None)

  lemma FlatVerticalIsNoBreach(cfg: Config, rel: Relative, t: real)
    requires Abs(rel.valt) < TOLERANCE && Abs(rel.alt) >= cfg.verticalFt
    ensures !SnappedBreach(cfg, rel, t)
  {
    hide SpeedSq, Closing, RangeSq, SnappedQuadratic;
    var rate := Snap(rel.valt);
    assert rate == 0.0 && rate * t == 0.0;
  }

  lemma TogetherIsInside(cfg: Config, rel: Relative, t: real)
    requires cfg.Valid() && rel.e == rel.n == rel.ve == rel.vn == 0.0
    ensures DistanceSq(rel, t) < StandardSq(cfg)
    ensures SpeedSq(rel) == 0.0
  {
    assert rel.ve * t == 0.0 && rel.vn * t == 0.0;
    assert DistanceSq(rel, t) == 0.0;
    ProductValue(cfg.horizontalNm, cfg.horizontalNm, StandardSq(cfg));
  }

  lemma UnresolvedMotion()
    ensures var rel := RelativeMotion(LOWER, UPPER);
      rel.e == rel.n == rel.ve == rel.vn == 0.0 && rel.alt == 1000.0 && rel.valt == -0.0000000000001
  {
  }

  /** Without the resolution proviso exactness fails: the upper track sinks inside the standard within
      the lookahead, and no conflict is reported. */
  lemma UnresolvedRateIsMissed(m: Maths)
    requires IsSqrt(m.sqrt)
    ensures DEFAULTS.Valid() && !Resolved(RelativeMotion(LOWER, UPPER))
    ensures Breach(DEFAULTS, RelativeMotion(LOWER, UPPER), 300.0)
    ensures TestPair(DEFAULTS, m, LOWER, UPPER).None?
  {
    var rel := RelativeMotion(LOWER, UPPER);
    hide TestPair, RelativeMotion, SnappedBreach, SpeedSq, DistanceSq, StandardSq, Uncertainty, LOWER, UPPER;
    UnresolvedMotion();
    TogetherIsInside(DEFAULTS, rel, 300.0);
    forall t ensures !SnappedBreach(DEFAULTS, rel, t) {
      FlatVerticalIsNoBreach(DEFAULTS, rel, t);
    }
    DecidesSnappedBreach(DEFAULTS, m, LOWER, UPPER);
  }
}
