/** The uncertainty a track is announced with (kalman.py) and what the detector makes of it (separation.py,
    probability.py): the same variances, projected a little optimistically. */
module Handover {
  import opened Prelude
  import opened Blocks
  import opened Kalman
  import opened KalmanUpdate
  import opened Propagation
  import opened TrackFilters
  import opened Separation
  import FilterRuns
  import Likelihood = Probability

  /** The track carries the filter's own uncertainties. */
  predicate Carries(m: Maths, track: Track, bs: Triple) {
    && track.positionSigmaM == FilterRuns.PositionUncertaintyM(bs, m.sqrt)
    && track.velocitySigmaKt == Some(FilterRuns.VelocityUncertaintyKt(bs, m.sqrt))
    && track.altitudeSigmaFt == Some(FilterRuns.AltitudeUncertaintyFt(bs, m.sqrt))
    && track.rateSigmaFpm == Some(FilterRuns.VerticalRateUncertaintyFpm(bs, m.sqrt))
  }

  /** The mean of the two horizontal position variances, and of the two velocity variances. */
  function PositionVariance(bs: Triple): real { (bs[0].pos + bs[1].pos) / 2.0 }

  function VelocityVariance(bs: Triple): real { (bs[0].rate + bs[1].rate) / 2.0 }

  lemma RootSquared(m: Maths, v: real)
    requires IsSqrt(m.sqrt) && v >= 0.0
    ensures m.sqrt(Max(0.0, v)) * m.sqrt(Max(0.0, v)) == v && m.sqrt(Max(0.0, v)) >= 0.0
  {
  }

  /** Over both axes in metres, and back to one axis in nautical miles. */
  lemma MetresAndBack(root: real, root2: real, v: real, metres: real, back: real)
    requires root * root == v && root2 * root2 == 2.0 && root2 > 0.0
    requires metres == root * 1852.0 && back == metres / 1852.0 / root2
    ensures back * back == v / 2.0
  {
    assert back * root2 == root;
    assert back * root2 * (back * root2) == back * back * (root2 * root2);
  }

  lemma RootOfTwo(m: Maths)
    requires IsSqrt(m.sqrt)
    ensures m.sqrt(2.0) * m.sqrt(2.0) == 2.0 && m.sqrt(2.0) > 0.0
  {
  }

  /** What the detector reads off such a track: the standard deviation of each of its states, the horizontal ones
      averaged over the two axes. */
  lemma DetectorReadsTheFilter(m: Maths, track: Track, bs: Triple)
    requires IsSqrt(m.sqrt) && AllGood(bs) && Carries(m, track, bs)
    ensures var u := Uncertainty(m, track);
      && u.Some?
      && u.value.positionNm * u.value.positionNm == PositionVariance(bs)
      && u.value.velocityKt * u.value.velocityKt == VelocityVariance(bs)
      && u.value.altitudeFt * u.value.altitudeFt == bs[2].pos && u.value.rateFpm * u.value.rateFpm == bs[2].rate
  {
    hide IsSqrt;
    var u := Uncertainty(m, track).value;
    RootSquared(m, bs[0].pos + bs[1].pos);
    RootSquared(m, 0.5 * (bs[0].rate + bs[1].rate));
    RootSquared(m, bs[2].pos);
    RootSquared(m, bs[2].rate);
    RootOfTwo(m);
    MetresAndBack(m.sqrt(Max(0.0, bs[0].pos + bs[1].pos)), m.sqrt(2.0), bs[0].pos + bs[1].pos, track.positionSigmaM,
                  u.positionNm);
  }

  lemma SigmaSquared(m: Maths, nowA: real, nowB: real, rateA: real, rateB: real, dt: real)
    requires IsSqrt(m.sqrt)
    ensures var s := Sigma(m, nowA, nowB, rateA, rateB, dt);
      s >= 0.0 && s * s == nowA * nowA + nowB * nowB + (rateA * rateA + rateB * rateB) * (dt * dt)
  {
    var still, rate, square :|
      still == nowA * nowA + nowB * nowB && rate == rateA * rateA + rateB * rateB && square == dt * dt;
    SumOfSquaresValue(nowA, nowB, still);
    SumOfSquaresValue(rateA, rateB, rate);
    SquareValue(dt, square);
    ProductIsNonNegative(rate, square);
    assert SigmaSq(nowA, nowB, rateA, rateB, dt) == still + rate * square;
    hide SigmaSq;
  }

  lemma RateShare(v: real, k: real, t: real, square: real)
    requires k > 0.0 && square == v * v
    ensures v / k * (v / k) * (t * t) == square * (t / k) * (t / k)
  {
    var (x, y) := (v / k, t / k);
    assert x * k == v && y * k == t;
    assert x * x * (t * t) == x * x * k * k * (y * y);
    assert x * x * k * k == square;
  }

  /** The detector's horizontal variance of a pair, `t` seconds ahead: of each track the position variance, and the
      velocity variance in nautical miles over that time. */
  lemma HorizontalVarianceOfPair(m: Maths, a: Track, b: Track, as': Triple, bs: Triple, t: real)
    requires IsSqrt(m.sqrt) && AllGood(as') && AllGood(bs) && Carries(m, a, as') && Carries(m, b, bs)
    ensures Uncertainty(m, a).Some? && Uncertainty(m, b).Some?
    ensures var s := HorizontalSigma(m, a, b, t);
      s >= 0.0 && s * s == PositionVariance(as') + PositionVariance(bs)
                           + (VelocityVariance(as') + VelocityVariance(bs)) * (t / 3600.0) * (t / 3600.0)
  {
    hide IsSqrt, Sigma, AllGood, Carries, Uncertainty, PositionVariance, VelocityVariance;
    DetectorReadsTheFilter(m, a, as');
    DetectorReadsTheFilter(m, b, bs);
    var (u, v) := (Uncertainty(m, a).value, Uncertainty(m, b).value);
    SigmaSquared(m, u.positionNm, v.positionNm, KnotsToNmPerSecond(u.velocityKt), KnotsToNmPerSecond(v.velocityKt), t);
    RateShare(u.velocityKt, 3600.0, t, VelocityVariance(as'));
    RateShare(v.velocityKt, 3600.0, t, VelocityVariance(bs));
    Shares(KnotsToNmPerSecond(u.velocityKt), KnotsToNmPerSecond(v.velocityKt), t, t / 3600.0, VelocityVariance(as'),
           VelocityVariance(bs));
  }

  lemma Shares(x: real, y: real, t: real, h: real, v: real, w: real)
    requires x * x * (t * t) == v * h * h && y * y * (t * t) == w * h * h
    ensures (x * x + y * y) * (t * t) == (v + w) * h * h
  {
  }

  /** The same for the vertical, in feet. */
  lemma VerticalVarianceOfPair(m: Maths, a: Track, b: Track, as': Triple, bs: Triple, t: real)
    requires IsSqrt(m.sqrt) && AllGood(as') && AllGood(bs) && Carries(m, a, as') && Carries(m, b, bs)
    ensures Uncertainty(m, a).Some? && Uncertainty(m, b).Some?
    ensures var s := VerticalSigma(m, a, b, t);
      s >= 0.0 && s * s == as'[2].pos + bs[2].pos + (as'[2].rate + bs[2].rate) * (t / 60.0) * (t / 60.0)
  {
    hide IsSqrt, Sigma, AllGood, Carries, Uncertainty, PositionVariance, VelocityVariance;
    DetectorReadsTheFilter(m, a, as');
    DetectorReadsTheFilter(m, b, bs);
    var (u, v) := (Uncertainty(m, a).value, Uncertainty(m, b).value);
    SigmaSquared(m, u.altitudeFt, v.altitudeFt, u.rateFpm / 60.0, v.rateFpm / 60.0, t);
    RateShare(u.rateFpm, 60.0, t, as'[2].rate);
    RateShare(v.rateFpm, 60.0, t, bs[2].rate);
    Shares(u.rateFpm / 60.0, v.rateFpm / 60.0, t, t / 60.0, as'[2].rate, bs[2].rate);
  }

  // ----- Against what the filters themselves would say -----

  /** What coasting to `t` seconds ahead adds to a position variance beyond what its rate's variance does: the cross
      term and the process noise, never negative. */
  function Beyond(b: Block, h: real, t: real, sigma: real): real {
    2.0 * h * b.cross + (h * t / 2.0) * (h * t / 2.0) * sigma * sigma
  }

  lemma BeyondIsPositive(b: Block, h: real, t: real, sigma: real)
    requires Good(b) && h > 0.0 && t > 0.0 && sigma > 0.0
    ensures Beyond(b, h, t, sigma) > 0.0
  {
    var g := h * t / 2.0;
    ProductIsPositive(h, t);
    ProductIsNonNegative(h, b.cross);
    var gs := g * sigma;
    ProductIsPositive(g, sigma);
    var square :| square == gs * gs;
    ProductValue(gs, gs, square);
    assert g * g * sigma * sigma == square;
    assert 2.0 * h * b.cross == 2.0 * (h * b.cross);
  }

  lemma SpreadIs(b: Block, b': Block, h: real, t: real, sigma: real)
    requires Spreads(b, b', h, t, sigma)
    ensures b'.pos == b.pos + b.rate * h * h + Beyond(b, h, t, sigma)
  {
    assert h * h * b.rate == b.rate * h * h;
  }

  /** The detector's variances are below those of the two filters coasted to the same time, by exactly the cross
      terms and the process noise it leaves out. */
  lemma DetectorIsOptimistic(m: Maths, tuning: Tuning, a: Track, b: Track, s: Belief, r: Belief, t: real)
    requires IsSqrt(m.sqrt) && tuning.Valid() && AllGood(s.blocks) && AllGood(r.blocks) && t > 0.0
    requires Carries(m, a, s.blocks) && Carries(m, b, r.blocks)
    ensures Uncertainty(m, a).Some? && Uncertainty(m, b).Some?
    ensures var (v, x, y) := (VerticalSigma(m, a, b, t), Coasted(tuning, s, t).blocks, Coasted(tuning, r, t).blocks);
      var left := Beyond(s.blocks[2], t / 60.0, t, tuning.verticalFpmS)
                  + Beyond(r.blocks[2], t / 60.0, t, tuning.verticalFpmS);
      left > 0.0 && x[2].pos + y[2].pos == v * v + left
    ensures var (h, x, y) := (HorizontalSigma(m, a, b, t), Coasted(tuning, s, t).blocks, Coasted(tuning, r, t).blocks);
      PositionVariance(x) + PositionVariance(y) > h * h
  {
    hide Coasted, Carries, IsSqrt, Uncertainty, HorizontalSigma, VerticalSigma, Spreads, Beyond, Moves, Good;
    var (x, y) := (Coasted(tuning, s, t).blocks, Coasted(tuning, r, t).blocks);
    CoastingPropagates(tuning, s, t);
    CoastingPropagates(tuning, r, t);
    VerticalVarianceOfPair(m, a, b, s.blocks, r.blocks, t);
    HorizontalVarianceOfPair(m, a, b, s.blocks, r.blocks, t);
    PairSpreads(s.blocks[2], x[2], r.blocks[2], y[2], t / 60.0, t, tuning.verticalFpmS);
    PairSpreads(s.blocks[0], x[0], r.blocks[0], y[0], t / 3600.0, t, tuning.accelKtS);
    PairSpreads(s.blocks[1], x[1], r.blocks[1], y[1], t / 3600.0, t, tuning.accelKtS);
    AxesAverage(s.blocks[0].rate, s.blocks[1].rate, r.blocks[0].rate, r.blocks[1].rate, t / 3600.0);
  }

  lemma PairSpreads(b: Block, b': Block, c: Block, c': Block, h: real, t: real, sigma: real)
    requires Good(b) && Good(c) && h > 0.0 && t > 0.0 && sigma > 0.0
    requires Spreads(b, b', h, t, sigma) && Spreads(c, c', h, t, sigma)
    ensures Beyond(b, h, t, sigma) > 0.0 && Beyond(c, h, t, sigma) > 0.0
    ensures b'.pos + c'.pos == b.pos + c.pos + (b.rate + c.rate) * h * h
                               + (Beyond(b, h, t, sigma) + Beyond(c, h, t, sigma))
  {
    hide Spreads, Beyond, Good;
    SpreadIs(b, b', h, t, sigma);
    SpreadIs(c, c', h, t, sigma);
    BeyondIsPositive(b, h, t, sigma);
    BeyondIsPositive(c, h, t, sigma);
    assert (b.rate + c.rate) * h * h == b.rate * h * h + c.rate * h * h;
  }

  lemma AxesAverage(p: real, q: real, r: real, s: real, h: real)
    ensures ((p + r) * h * h + (q + s) * h * h) / 2.0 == ((p + q) / 2.0 + (r + s) / 2.0) * h * h
  {
  }
}
