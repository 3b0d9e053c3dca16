/** What the probabilistic detector decides (separation.py with probability.py): when the cheap rejection
    may stand before it, and when it agrees with the deterministic detector on tracks without
    uncertainty. */
module Weighing {
  import opened Prelude
  import opened Windows
  import opened Separation
  import opened Geometry
  import opened Passing
  import Likelihood = Probability

  // ----- When the rejection may stand before the detector -----

  /** A track at the origin, still and level, known but for its altitude. */
  function Hovering(id: string, altitudeFt: real, altitudeSigmaFt: real): Track {
    Track(id, None, 0, 0.0, 0.0, 0.0, 0.0, altitudeFt, 0.0, 0.0, Some(0.0), Some(altitudeSigmaFt), Some(0.0))
  }

  lemma SqrtOfSquare(m: Maths, x: real, square: real)
    requires IsSqrt(m.sqrt) && x >= 0.0 && square == x * x
    ensures m.sqrt(square) == x
  {
    SquareValue(x, square);
    SquareOrder(m.sqrt(square), x);
    SquareOrder(x, m.sqrt(square));
  }

  lemma HoveringMotion(a: string, b: string, altitudeFt: real, sigmaFt: real)
    ensures var rel := RelativeMotion(Hovering(a, 0.0, sigmaFt), Hovering(b, altitudeFt, 0.0));
      rel.e == rel.n == rel.ve == rel.vn == rel.valt == 0.0 && rel.alt == altitudeFt
  {
  }

  /** Only one altitude is uncertain. */
  lemma SigmaOfOne(m: Maths, sigma: real, t: real)
    requires IsSqrt(m.sqrt) && sigma >= 0.0
    ensures Sigma(m, sigma, 0.0, 0.0, 0.0, t) == sigma
  {
    SquareValue(sigma, SigmaSq(sigma, 0.0, 0.0, 0.0, t));
    SqrtOfSquare(m, sigma, SigmaSq(sigma, 0.0, 0.0, 0.0, t));
  }

  lemma NoPositionSigma(m: Maths, track: Track)
    requires IsSqrt(m.sqrt) && Uncertainty(m, track).Some? && track.positionSigmaM == 0.0
    ensures Uncertainty(m, track).value.positionNm == 0.0
  {
    assert m.sqrt(2.0) * m.sqrt(2.0) == 2.0;
  }

  /** Nothing is uncertain but one altitude. */
  predicate OnlyAltitude(track: Track, sigmaFt: real) {
    track.positionSigmaM == 0.0 && track.velocitySigmaKt == Some(0.0) && track.altitudeSigmaFt == Some(sigmaFt)
    && track.rateSigmaFpm == Some(0.0)
  }

  lemma OnlyAltitudeSigmas(m: Maths, first: Track, second: Track, sigmaFt: real, t: real)
    requires IsSqrt(m.sqrt) && sigmaFt >= 0.0 && OnlyAltitude(first, sigmaFt) && OnlyAltitude(second, 0.0)
    ensures Uncertainty(m, first).Some? && Uncertainty(m, second).Some?
    ensures HorizontalSigma(m, first, second, t) == 0.0 && VerticalSigma(m, first, second, t) == sigmaFt
  {
    hide Sigma;
    NoPositionSigma(m, first);
    NoPositionSigma(m, second);
    SigmaOfOne(m, 0.0, t);
    SigmaOfOne(m, sigmaFt, t);
  }

  lemma HoveringIsRejected(cfg: Config, m: Maths, sigmaFt: real)
    requires cfg.Valid() && IsSqrt(m.sqrt) && cfg.probabilityThreshold.Some? && sigmaFt > 0.0
    ensures var (first, second) := TailPair(cfg, sigmaFt);
      Weighed(cfg, m, first, second) && Rejected(cfg, m, first, second)
  {
    hide Sigma, Likelihood.Trusted;
    var (first, second) := TailPair(cfg, sigmaFt);
    OnlyAltitudeSigmas(m, first, second, sigmaFt, cfg.lookaheadS);
  }

  /** Two tracks at one place, apart by the standard and the cutoff's worth of the lower one's altitude
      uncertainty. */
  function TailPair(cfg: Config, sigmaFt: real): (Track, Track) {
    (Hovering("a", 0.0, sigmaFt), Hovering("b", cfg.verticalFt + Likelihood.SIGMA_CUTOFF * sigmaFt, 0.0))
  }

  /** What the full test makes of them: half the normal tail beyond the cutoff, as far as the other side
      of the band. */
  lemma HoveringProbability(cfg: Config, m: Maths, sigmaFt: real, z: real)
    requires cfg.Valid() && IsSqrt(m.sqrt) && cfg.probabilityThreshold.Some? && sigmaFt > 0.0
    requires (-Likelihood.SIGMA_CUTOFF - z) * sigmaFt == 2.0 * cfg.verticalFt
    ensures var (first, second) := TailPair(cfg, sigmaFt);
      Assess(cfg, m, first, second).Some?
      <==> Max(0.0, m.laws.normalCdf(-Likelihood.SIGMA_CUTOFF) - m.laws.normalCdf(z)) >= cfg.probabilityThreshold.value
  {
    hide Sigma, ConflictWindow, Likelihood.Trusted, Rejected, HorizontalSigma, VerticalSigma, TailPair, RelativeMotion,
      ReportTime, ReportVertical, DistanceSq, RangeSq, Likelihood.ConflictProbability;
    var (first, second) := TailPair(cfg, sigmaFt);
    HoveringIsRejected(cfg, m, sigmaFt);
    HoveringReport(cfg, m, sigmaFt);
    HoveringConflict(cfg, m, sigmaFt, z);
    TailPairSigmas(cfg, m, sigmaFt);
  }

  lemma TailPairSigmas(cfg: Config, m: Maths, sigmaFt: real)
    requires IsSqrt(m.sqrt) && sigmaFt >= 0.0
    ensures var (first, second) := TailPair(cfg, sigmaFt);
      && Uncertainty(m, first).Some? && Uncertainty(m, second).Some?
      && HorizontalSigma(m, first, second, 0.0) == 0.0 && VerticalSigma(m, first, second, 0.0) == sigmaFt
  {
    hide Sigma, HorizontalSigma, VerticalSigma, Uncertainty;
    OnlyAltitudeSigmas(m, TailPair(cfg, sigmaFt).0, TailPair(cfg, sigmaFt).1, sigmaFt, 0.0);
  }

  /** They are never inside the vertical standard, and are weighed as they are now. */
  lemma HoveringReport(cfg: Config, m: Maths, sigmaFt: real)
    requires cfg.Valid() && IsSqrt(m.sqrt) && cfg.probabilityThreshold.Some? && sigmaFt > 0.0
    ensures var rel := RelativeMotion(TailPair(cfg, sigmaFt).0, TailPair(cfg, sigmaFt).1);
      && ReportTime(cfg, m, rel) == 0.0 && m.sqrt(DistanceSq(rel, 0.0)) == 0.0
      && ReportVertical(cfg, m, rel) == cfg.verticalFt + Likelihood.SIGMA_CUTOFF * sigmaFt
  {
    hide Sigma, ConflictWindow, Likelihood.Trusted, Rejected, HorizontalSigma, VerticalSigma, RelativeMotion;
    var (first, second) := TailPair(cfg, sigmaFt);
    var rel := RelativeMotion(first, second);
    HoveringIsRejected(cfg, m, sigmaFt);
    SlackIsNonNegative(cfg, m, first, second);
    RejectedHasNoWindow(cfg, m, first, second);
    HoveringMotion("a", "b", cfg.verticalFt + Likelihood.SIGMA_CUTOFF * sigmaFt, sigmaFt);
    SqrtOfSquare(m, 0.0, 0.0);
    assert DistanceSq(rel, 0.0) == 0.0;
  }

  lemma HoveringConflict(cfg: Config, m: Maths, sigmaFt: real, z: real)
    requires cfg.Valid() && sigmaFt > 0.0 && (-Likelihood.SIGMA_CUTOFF - z) * sigmaFt == 2.0 * cfg.verticalFt
    ensures Likelihood.ConflictProbability(m.laws, 0.0, cfg.verticalFt + Likelihood.SIGMA_CUTOFF * sigmaFt, 0.0,
                                           sigmaFt,
                                           cfg.horizontalNm, cfg.verticalFt)
         == Max(0.0, m.laws.normalCdf(-Likelihood.SIGMA_CUTOFF) - m.laws.normalCdf(z))
  {
    hide Likelihood.Trusted;
    var v := cfg.verticalFt + Likelihood.SIGMA_CUTOFF * sigmaFt;
    RatioIs(cfg.verticalFt - v, sigmaFt, -Likelihood.SIGMA_CUTOFF);
    assert z * sigmaFt == -cfg.verticalFt - v;
    RatioIs(-cfg.verticalFt - v, sigmaFt, z);
  }

  lemma RatioIs(x: real, d: real, ratio: real)
    requires d > 0.0 && ratio * d == x
    ensures x / d == ratio
  {
  }

  /** Below the tail there is a pair the detector would report and the rejection drops. */
  lemma OverruledPair(cfg: Config, m: Maths) returns (first: Track, second: Track)
    requires cfg.Valid() && IsSqrt(m.sqrt) && !CoversTail(cfg, m)
    ensures Weighed(cfg, m, first, second)
    ensures TestPair(cfg, m, first, second).None? && Assess(cfg, m, first, second).Some?
  {
    hide Assess, Rejected, Weighed, Likelihood.SubProbability, Likelihood.Larger;
    var tail := m.laws.normalCdf(-Likelihood.SIGMA_CUTOFF);
    var level := tail - cfg.probabilityThreshold.value;
    assert Likelihood.Undercuts(m.laws, level);
    var z :| m.laws.normalCdf(z) < level;
    assert -Likelihood.SIGMA_CUTOFF < z ==> tail < m.laws.normalCdf(z);
    var sigma := 2.0 * cfg.verticalFt / (-Likelihood.SIGMA_CUTOFF - z);
    assert (-Likelihood.SIGMA_CUTOFF - z) * sigma == 2.0 * cfg.verticalFt;
    SignOfFactor(-Likelihood.SIGMA_CUTOFF - z, sigma, 2.0 * cfg.verticalFt);
    HoveringIsRejected(cfg, m, sigma);
    HoveringProbability(cfg, m, sigma, z);
    first, second := TailPair(cfg, sigma).0, TailPair(cfg, sigma).1;
  }

  /** The rejection stands before the probabilistic detector without ever overruling it exactly when the
      threshold is no lower than the normal tail beyond the cutoff. */
  lemma RejectionNeverOverrules(cfg: Config, m: Maths)
    requires cfg.Valid() && IsSqrt(m.sqrt)
    ensures CoversTail(cfg, m) <==>
      forall first, second :: Weighed(cfg, m, first, second) ==>
        TestPair(cfg, m, first, second) == Assess(cfg, m, first, second)
  {
    hide TestPair, Assess, Weighed, CoversTail;
    if CoversTail(cfg, m) {
      forall first, second | Weighed(cfg, m, first, second)
        ensures TestPair(cfg, m, first, second) == Assess(cfg, m, first, second)
      {
        RejectionIsExact(cfg, m, first, second);
      }
    } else {
      var first, second := OverruledPair(cfg, m);
    }
  }

  // ----- Tracks without uncertainty -----

  function Deterministic(cfg: Config): Config {
    cfg.(probabilityThreshold := None)
  }

  /** The distance at the report time is below the standard exactly when there is a conflict window or
      the closest approach is. */
  lemma ReportIsInside(cfg: Config, m: Maths, rel: Relative)
    requires cfg.Valid() && IsSqrt(m.sqrt) && Resolved(rel)
    ensures var w := ConflictWindow(cfg, m, rel);
      var at := ReportTime(cfg, m, rel);
      m.sqrt(DistanceSq(rel, at)) < cfg.horizontalNm && ReportVertical(cfg, m, rel) < cfg.verticalFt
      <==> w.Some? && !PassesThrough(cfg, rel)
  {
    hide ConflictWindow, SnappedBreach, ClosestApproach, DistanceSq, Resolved, StandardSq, Height, PassesThrough;
    WindowExact(cfg, m, rel);
    CrossingIsPassing(cfg, m, rel);
    ClosestApproachIsInside(cfg, rel);
    var (w, at) := (ConflictWindow(cfg, m, rel), ReportTime(cfg, m, rel));
    if w.Some? {
      var mid := (w.value.0 + w.value.1) / 2.0;
      assert SnappedBreach(cfg, rel, mid);
      SnappedIsTrueWhenResolved(cfg, rel, mid);
      ClosestIsMinimal(cfg, rel, w.value.0, w.value.1, mid);
      StrictlyBelowStandard(cfg, m, rel, at, mid);
    } else {
      assert !SnappedBreach(cfg, rel, at);
      SnappedIsTrueWhenResolved(cfg, rel, at);
      BelowStandard(cfg, m, rel, at);
    }
  }

  lemma BelowStandard(cfg: Config, m: Maths, rel: Relative, t: real)
    requires cfg.Valid() && IsSqrt(m.sqrt)
    ensures m.sqrt(DistanceSq(rel, t)) < cfg.horizontalNm <==> DistanceSq(rel, t) < StandardSq(cfg)
  {
    hide DistanceSq;
    DistanceSqIsNonNegative(rel, t);
    SquareOrder(m.sqrt(DistanceSq(rel, t)), cfg.horizontalNm);
  }

  /** A pair known without uncertainty is rejected by neither detector or by both. */
  lemma CertainRejection(cfg: Config, m: Maths, first: Track, second: Track)
    requires cfg.Valid() && IsSqrt(m.sqrt) && OnlyAltitude(first, 0.0) && OnlyAltitude(second, 0.0)
    ensures Rejected(cfg, m, first, second) <==> Rejected(Deterministic(cfg), m, first, second)
  {
    hide Sigma, HorizontalSigma, VerticalSigma, Likelihood.Trusted;
    OnlyAltitudeSigmas(m, first, second, 0.0, cfg.lookaheadS);
  }

  /** The probabilistic detector, given tracks known without uncertainty, reports what the deterministic
      one does, except for a pair that passes through the whole vertical band inside the horizontal
      standard: it is weighed by the altitude difference at the ends of the conflict window, where it is at
      the standard. */
  lemma CertainPairsMatchDeterministic(cfg: Config, m: Maths, first: Track, second: Track)
    requires cfg.Valid() && IsSqrt(m.sqrt) && OnlyAltitude(first, 0.0) && OnlyAltitude(second, 0.0)
    requires Weighed(cfg, m, first, second) && Resolved(RelativeMotion(first, second))
    ensures TestPair(cfg, m, first, second).Some?
       <==> TestPair(Deterministic(cfg), m, first, second).Some? && !PassesThrough(cfg, RelativeMotion(first, second))
  {
    hide Sigma, HorizontalSigma, VerticalSigma, Rejected, RelativeMotion, ConflictWindow, Likelihood.Trusted,
      PassesThrough,
      Resolved, ReportTime, ReportVertical, DistanceSq, RangeSq, Likelihood.ConflictProbability;
    var rel := RelativeMotion(first, second);
    var (at, v) := (ReportTime(cfg, m, rel), ReportVertical(cfg, m, rel));
    CertainRejection(cfg, m, first, second);
    ReportIsInside(cfg, m, rel);
    OnlyAltitudeSigmas(m, first, second, 0.0, at);
    Likelihood.CertainTracksAreDecided(m.laws, m.sqrt(DistanceSq(rel, at)), v, cfg.horizontalNm, cfg.verticalFt);
    VerticalIsNonNegative(cfg, m, rel);
    SameWindow(cfg, m, rel);
    if Rejected(cfg, m, first, second) {
      SlackIsNonNegative(cfg, m, first, second);
      RejectedHasNoWindow(cfg, m, first, second);
    }
  }

  lemma VerticalIsNonNegative(cfg: Config, m: Maths, rel: Relative)
    ensures ReportVertical(cfg, m, rel) >= 0.0
  {
    hide ConflictWindow, ReportTime, Height;
  }

  lemma SameWindow(cfg: Config, m: Maths, rel: Relative)
    ensures ConflictWindow(Deterministic(cfg), m, rel) == ConflictWindow(cfg, m, rel)
  {
    hide QuadraticBelow, LinearWithin, Overlap;
  }

  /** Two tracks at one place, 2000 ft apart, the upper one descending through the other's level. */
  const LEVEL_TRACK := Track("a", None, 5, 0.0, 0.0, 0.0, 0.0, 30000.0, 0.0, 0.0, Some(0.0), Some(0.0), Some(0.0))
  const SINKING_TRACK := LEVEL_TRACK.(id := "b", altitudeFt := 32000.0, vAltFpm := -1200.0)
  const EVEN_CHANCE := DEFAULTS.(probabilityThreshold := Some(0.5))

  lemma SinkingMotion()
    ensures var rel := RelativeMotion(LEVEL_TRACK, SINKING_TRACK);
      rel.e == rel.n == rel.ve == rel.vn == 0.0 && rel.alt == 2000.0 && rel.valt == -20.0
  {
  }

  lemma SinkingHeight(rel: Relative, t: real)
    requires rel.alt == 2000.0 && rel.valt == -20.0 && 50.0 < t < 150.0
    ensures Abs(Height(rel, t)) < 1000.0
  {
    assert rel.valt * t == -20.0 * t;
  }

  lemma SinkingBreaches(cfg: Config, rel: Relative, t: real)
    requires cfg.Valid() && cfg.verticalFt == 1000.0 && 50.0 < t < 150.0
    requires rel.e == rel.n == rel.ve == rel.vn == 0.0 && rel.alt == 2000.0 && rel.valt == -20.0
    ensures Breach(cfg, rel, t)
  {
    hide DistanceSq, StandardSq, SpeedSq, Height, Abs;
    TogetherIsInside(cfg, rel, t);
    SinkingHeight(rel, t);
  }

  /** They pass through each other's level, and with every uncertainty zero the probabilistic detector
      reports nothing. */
  lemma CrossingPairIsMissed(m: Maths)
    requires IsSqrt(m.sqrt)
    ensures EVEN_CHANCE.Valid() && Breach(EVEN_CHANCE, RelativeMotion(LEVEL_TRACK, SINKING_TRACK), 100.0)
    ensures TestPair(Deterministic(EVEN_CHANCE), m, LEVEL_TRACK, SINKING_TRACK).Some?
    ensures TestPair(EVEN_CHANCE, m, LEVEL_TRACK, SINKING_TRACK).None?
  {
    hide TestPair, RelativeMotion, ConflictWindow, Breach, SnappedBreach, DistanceSq, SpeedSq, Sigma, StandardSq,
      PassesThrough;
    var (cfg, rel) := (EVEN_CHANCE, RelativeMotion(LEVEL_TRACK, SINKING_TRACK));
    SinkingMotion();
    TogetherIsInside(cfg, rel, 100.0);
    SinkingBreaches(cfg, rel, 100.0);
    SinkingPasses(cfg, rel);
    assert Deterministic(cfg).Valid();
    DetectsExactlySimultaneousBreach(Deterministic(cfg), m, LEVEL_TRACK, SINKING_TRACK);
    SameBreach(cfg, rel, 100.0);
    CertainPairsMatchDeterministic(cfg, m, LEVEL_TRACK, SINKING_TRACK);
  }

  lemma SameBreach(cfg: Config, rel: Relative, t: real)
    ensures Breach(Deterministic(cfg), rel, t) <==> Breach(cfg, rel, t)
  {
    hide DistanceSq, Height;
  }

  /** They are 1000 ft apart at 50 s and at 150 s, at one place. */
  lemma SinkingPasses(cfg: Config, rel: Relative)
    requires cfg.Valid() && cfg.verticalFt == 1000.0 && cfg.lookaheadS == 300.0
    requires rel.e == rel.n == rel.ve == rel.vn == 0.0 && rel.alt == 2000.0 && rel.valt == -20.0
    ensures PassesThrough(cfg, rel)
  {
    hide DistanceSq, StandardSq, SpeedSq;
    TogetherIsInside(cfg, rel, 50.0);
    TogetherIsInside(cfg, rel, 100.0);
    TogetherIsInside(cfg, rel, 150.0);
    assert Crossing(1000.0, rel.alt, rel.valt) == 50.0 && Crossing(-1000.0, rel.alt, rel.valt) == 150.0;
  }
}
