/** Running a filter forward (kalman.py), in the units of its states: how far each rate moves its position
    and how much each variance grows. */
module Propagation {
  import opened Prelude
  import opened Blocks
  import opened Kalman
  import opened KalmanFilter

  /** Over `dt` seconds knots carry the position in nautical miles, feet per minute the altitude in feet, and
      no rate changes. */
  predicate Moves(x: Mean, x': Mean, dt: real) {
    && x'[EAST] == x[EAST] + x[VEAST] * dt / 3600.0 && x'[VEAST] == x[VEAST]
    && x'[NORTH] == x[NORTH] + x[VNORTH] * dt / 3600.0 && x'[VNORTH] == x[VNORTH]
    && x'[ALT] == x[ALT] + x[VRATE] * dt / 60.0 && x'[VRATE] == x[VRATE]
  }

  /** One unit of rate covers `h` in `dt` seconds, and an acceleration of standard deviation `sigma` acts on
      the rate all the while. */
  predicate Spreads(b: Block, b': Block, h: real, dt: real, sigma: real) {
    && b'.pos == b.pos + 2.0 * h * b.cross + h * h * b.rate + (h * dt / 2.0) * (h * dt / 2.0) * sigma * sigma
    && b'.cross == b.cross + h * b.rate + (h * dt / 2.0) * dt * sigma * sigma
    && b'.rate == b.rate + dt * dt * sigma * sigma
  }

  predicate Propagated(t: Tuning, x: Mean, bs: Triple, x': Mean, bs': Triple, dt: real) {
    && Moves(x, x', dt)
    && Spreads(bs[0], bs'[0], dt / 3600.0, dt, t.accelKtS) && Spreads(bs[1], bs'[1], dt / 3600.0, dt, t.accelKtS)
    && Spreads(bs[2], bs'[2], dt / 60.0, dt, t.verticalFpmS)
  }

  lemma PredictedSpreads(b: Block, dt: real, gain: real, v: real, h: real, sigma: real)
    requires h == gain * dt && v == sigma * sigma
    ensures Spreads(b, Predicted(b, dt, gain, v), h, dt, sigma)
  {
    var g := 0.5 * dt * dt * gain;
    assert g == h * dt / 2.0;
    assert g * g * v == (h * dt / 2.0) * (h * dt / 2.0) * sigma * sigma;
    assert g * dt * v == (h * dt / 2.0) * dt * sigma * sigma;
    assert dt * dt * v == dt * dt * sigma * sigma;
    assert (b.cross + h * b.rate) * h == h * b.cross + h * h * b.rate;
  }

  lemma PredictionSpreads(t: Tuning, bs: Triple, dt: real)
    ensures Spreads(bs[0], PredictBlock(t, bs, dt, 0), dt / 3600.0, dt, t.accelKtS)
    ensures Spreads(bs[1], PredictBlock(t, bs, dt, 1), dt / 3600.0, dt, t.accelKtS)
    ensures Spreads(bs[2], PredictBlock(t, bs, dt, 2), dt / 60.0, dt, t.verticalFpmS)
  {
    hide Predicted, Spreads;
    PredictedSpreads(bs[0], dt, RateGain(0), AccelVar(t, 0), dt / 3600.0, t.accelKtS);
    PredictedSpreads(bs[1], dt, RateGain(1), AccelVar(t, 1), dt / 3600.0, t.accelKtS);
    PredictedSpreads(bs[2], dt, RateGain(2), AccelVar(t, 2), dt / 60.0, t.verticalFpmS);
  }

  lemma RateMoves(rate: real, dt: real)
    ensures 1.0 / 3600.0 * dt * rate == rate * dt / 3600.0 && 1.0 / 60.0 * dt * rate == rate * dt / 60.0
  {
  }

  lemma PredictionMoves(x: Mean, x': Mean, dt: real)
    requires forall i: State :: x'[i] == PredictedMean(x, dt, i)
    ensures Moves(x, x', dt)
  {
    RateMoves(x[VEAST], dt);
    RateMoves(x[VNORTH], dt);
    RateMoves(x[VRATE], dt);
    assert x'[EAST] == PredictedMean(x, dt, EAST) && x'[VEAST] == PredictedMean(x, dt, VEAST);
    assert x'[NORTH] == PredictedMean(x, dt, NORTH) && x'[VNORTH] == PredictedMean(x, dt, VNORTH);
    assert x'[ALT] == PredictedMean(x, dt, ALT) && x'[VRATE] == PredictedMean(x, dt, VRATE);
  }

  /** Predicting is propagating in these units. */
  lemma PredictionPropagates(t: Tuning, x: Mean, bs: Triple, x': Mean, dt: real)
    requires forall i: State :: x'[i] == PredictedMean(x, dt, i)
    ensures Propagated(t, x, bs, x', PredictBlocks(t, bs, dt), dt)
  {
    hide PredictedMean, Spreads, Moves, PredictBlock;
    PredictionMoves(x, x', dt);
    PredictionSpreads(t, bs, dt);
  }

  /** Two propagations carry the state as far as one over both intervals. */
  lemma MovesCompose(x: Mean, y: Mean, z: Mean, a: real, b: real)
    requires Moves(x, y, a) && Moves(y, z, b)
    ensures Moves(x, z, a + b)
  {
    MoreTime(x[VEAST], a, b);
    MoreTime(x[VNORTH], a, b);
    MoreTime(x[VRATE], a, b);
  }

  lemma MoreTime(rate: real, a: real, b: real)
    ensures rate * (a + b) / 3600.0 == rate * a / 3600.0 + rate * b / 3600.0
    ensures rate * (a + b) / 60.0 == rate * a / 60.0 + rate * b / 60.0
  {
  }
}
