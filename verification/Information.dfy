/** What a correction does to a filter's belief (kalman.py), without gains: the information of each block, the
    inverse of its covariance, grows by that of the measurements, and the state moves in proportion. */
module Information {
  import opened Prelude
  import opened Blocks
  import opened Kalman
  import opened KalmanUpdate
  import opened KalmanFilter
  import opened Propagation
  import opened TrackFilters
  import FilterRuns

  /** The information of a measurement with this standard deviation. */
  function Precision(sigma: real): real
    requires sigma != 0.0
  {
    SquareValue(sigma, sigma * sigma);
    1.0 / (sigma * sigma)
  }

  /** One row: `(p, q) == (x, y) + (x, y) * diag(wPos, wRate) * b`. */
  predicate RowAdds(b: Block, x: real, y: real, wPos: real, wRate: real, p: real, q: real) {
    && p == x + x * wPos * b.pos + y * wRate * b.cross
    && q == y + x * wPos * b.cross + y * wRate * b.rate
  }

  /** The inverse of `after` is the inverse of `before` with these two added on the diagonal, multiplied out:
      `before == after + after * diag(wPos, wRate) * before`. */
  predicate AddsInformation(before: Block, after: Block, wPos: real, wRate: real) {
    && RowAdds(before, after.pos, after.cross, wPos, wRate, before.pos, before.cross)
    && RowAdds(before, after.cross, after.rate, wPos, wRate, before.cross, before.rate)
  }

  /** The two states move by `after * diag(wPos, wRate)` times how far they were off. */
  predicate MovesBy(after: Block, wPos: real, wRate: real, offPos: real, offRate: real, byPos: real, byRate: real) {
    && byPos == after.pos * wPos * offPos + after.cross * wRate * offRate
    && byRate == after.cross * wPos * offPos + after.rate * wRate * offRate
  }

  /** The information a measurement of this variance carries; none if there is none. */
  function Weight(v: Option<real>): real
    requires Positive(v)
  {
    if v.Some? then 1.0 / v.value else 0.0
  }

  lemma WeightTimes(x: real, g: real, v: Option<real>)
    requires Positive(v) && (if v.Some? then g * v.value == x else g == 0.0)
    ensures x * Weight(v) == g
  {
    if v.Some? {
      var w := 1.0 / v.value;
      assert w * v.value == 1.0;
      assert g * v.value * w == g * (w * v.value);
    }
  }

  lemma Remainder(k: real, l: real, a: real, v: real, b: real, total: real, x: real)
    requires k * (a + v) + l * b == total && x == total - k * a - l * b
    ensures k * v == x
  {
    assert k * (a + v) == k * a + k * v;
  }

  lemma PositionRows(b: Block, v: real, vr: Option<real>, g: Gains)
    requires SolvesNormal(b, Some(v), vr, g)
    ensures g.pp * (b.pos + v) + g.pr * b.cross == b.pos && g.rp * (b.pos + v) + g.rr * b.cross == b.cross
  {
  }

  lemma RateRows(b: Block, vp: Option<real>, v: real, g: Gains)
    requires SolvesNormal(b, vp, Some(v), g)
    ensures g.pr * (b.rate + v) + g.pp * b.cross == b.cross && g.rr * (b.rate + v) + g.rp * b.cross == b.rate
  {
  }

  lemma CorrectedEntries(b: Block, g: Gains, c: Block)
    requires c == Corrected(b, g) && g.pp * b.cross + g.pr * b.rate == g.rp * b.pos + g.rr * b.cross
    ensures c.pos == b.pos - g.pp * b.pos - g.pr * b.cross && c.cross == b.cross - g.rp * b.pos - g.rr * b.cross
    ensures c.cross == b.cross - g.pr * b.rate - g.pp * b.cross && c.rate == b.rate - g.rr * b.rate - g.rp * b.cross
  {
  }

  lemma PositionColumn(b: Block, v: real, vr: Option<real>, g: Gains, c: Block)
    requires SolvesNormal(b, Some(v), vr, g) && c == Corrected(b, g)
    ensures g.pp * v == c.pos && g.rp * v == c.cross
  {
    hide SolvesNormal, Corrected;
    CrossTermsAgree(b, Some(v), vr, g);
    CorrectedEntries(b, g, c);
    PositionRows(b, v, vr, g);
    Remainder(g.pp, g.pr, b.pos, v, b.cross, b.pos, c.pos);
    Remainder(g.rp, g.rr, b.pos, v, b.cross, b.cross, c.cross);
  }

  lemma RateColumn(b: Block, vp: Option<real>, v: real, g: Gains, c: Block)
    requires SolvesNormal(b, vp, Some(v), g) && c == Corrected(b, g)
    ensures g.pr * v == c.cross && g.rr * v == c.rate
  {
    hide SolvesNormal, Corrected;
    CrossTermsAgree(b, vp, Some(v), g);
    CorrectedEntries(b, g, c);
    RateRows(b, vp, v, g);
    Remainder(g.pr, g.pp, b.rate, v, b.cross, b.cross, c.cross);
    Remainder(g.rr, g.rp, b.rate, v, b.cross, b.rate, c.rate);
  }

  /** A measured state's gains times its variance are entries of the corrected covariance. */
  lemma MeasuredColumns(b: Block, vp: Option<real>, vr: Option<real>, g: Gains, c: Block)
    requires SolvesNormal(b, vp, vr, g) && c == Corrected(b, g)
    ensures if vp.Some? then g.pp * vp.value == c.pos && g.rp * vp.value == c.cross else g.pp == 0.0 && g.rp == 0.0
    ensures if vr.Some? then g.pr * vr.value == c.cross && g.rr * vr.value == c.rate else g.pr == 0.0 && g.rr == 0.0
  {
    hide SolvesNormal, Corrected;
    Unmeasured(b, vp, vr, g);
    if vp.Some? { PositionColumn(b, vp.value, vr, g, c); }
    if vr.Some? { RateColumn(b, vp, vr.value, g, c); }
  }

  lemma Unmeasured(b: Block, vp: Option<real>, vr: Option<real>, g: Gains)
    requires SolvesNormal(b, vp, vr, g)
    ensures vp.None? ==> g.pp == 0.0 && g.rp == 0.0
    ensures vr.None? ==> g.pr == 0.0 && g.rr == 0.0
  {
  }

  /** Every gain is an entry of the corrected covariance times the information of the measurement. */
  lemma GainsAreWeights(b: Block, vp: Option<real>, vr: Option<real>)
    requires Good(b) && Positive(vp) && Positive(vr)
    ensures var (g, c) := (GainsFor(b, vp, vr), Correction(b, vp, vr));
      && c.pos * Weight(vp) == g.pp && c.cross * Weight(vp) == g.rp
      && c.cross * Weight(vr) == g.pr && c.rate * Weight(vr) == g.rr
  {
    hide GainsFor, Weight, Good, SolvesNormal, Corrected;
    var (g, c) := (GainsFor(b, vp, vr), Correction(b, vp, vr));
    GainsSolve(b, vp, vr);
    MeasuredColumns(b, vp, vr, g, c);
    ColumnWeights(c.pos, c.cross, g.pp, g.rp, vp);
    ColumnWeights(c.cross, c.rate, g.pr, g.rr, vr);
  }

  lemma ColumnWeights(x: real, y: real, g: real, h: real, v: Option<real>)
    requires Positive(v) && (if v.Some? then g * v.value == x && h * v.value == y else g == 0.0 && h == 0.0)
    ensures x * Weight(v) == g && y * Weight(v) == h
  {
    hide Weight;
    WeightTimes(x, g, v);
    WeightTimes(y, h, v);
  }

  lemma AddsByGains(b: Block, g: Gains, c: Block, wPos: real, wRate: real)
    requires c == Corrected(b, g) && g.pp * b.cross + g.pr * b.rate == g.rp * b.pos + g.rr * b.cross
    requires c.pos * wPos == g.pp && c.cross * wPos == g.rp && c.cross * wRate == g.pr && c.rate * wRate == g.rr
    ensures AddsInformation(b, c, wPos, wRate)
  {
    hide Corrected, RowAdds;
    CorrectedEntries(b, g, c);
    RowByGains(b, c.pos, c.cross, wPos, wRate, g.pp, g.pr, b.pos, b.cross);
    RowByGains(b, c.cross, c.rate, wPos, wRate, g.rp, g.rr, b.cross, b.rate);
  }

  lemma RowByGains(b: Block, x: real, y: real, wPos: real, wRate: real, k: real, l: real, p: real, q: real)
    requires k == x * wPos && l == y * wRate
    requires p == x + k * b.pos + l * b.cross && q == y + k * b.cross + l * b.rate
    ensures RowAdds(b, x, y, wPos, wRate, p, q)
  {
  }

  lemma CorrectionAdds(b: Block, vp: Option<real>, vr: Option<real>)
    requires Good(b) && Positive(vp) && Positive(vr)
    ensures AddsInformation(b, Correction(b, vp, vr), Weight(vp), Weight(vr))
  {
    hide GainsFor, Weight, Good, SolvesNormal, Corrected, AddsInformation;
    GainsAreWeights(b, vp, vr);
    GainsSolve(b, vp, vr);
    CrossTermsAgree(b, vp, vr, GainsFor(b, vp, vr));
    AddsByGains(b, GainsFor(b, vp, vr), Correction(b, vp, vr), Weight(vp), Weight(vr));
  }

  // ----- Nothing else does -----

  /** A homogeneous pair of equations with a positive determinant. */
  lemma OnlyZeroSolves(d: real, e: real, p: real, q: real, r: real, s: real)
    requires p * s - q * r > 0.0 && d * p + e * r == 0.0 && d * q + e * s == 0.0
    ensures d == 0.0 && e == 0.0
  {
    var det := p * s - q * r;
    assert d * det == (d * p + e * r) * s - (d * q + e * s) * r;
    assert e * det == (d * q + e * s) * p - (d * p + e * r) * q;
    ZeroFactor(d, det);
    ZeroFactor(e, det);
  }

  lemma ZeroFactor(x: real, k: real)
    requires k > 0.0 && x * k == 0.0
    ensures x == 0.0
  {
    if x > 0.0 { ProductIsPositive(x, k); }
    if x < 0.0 { ProductIsPositive(-x, k); }
  }

  lemma InformationDeterminant(b: Block, w: real, u: real)
    requires Good(b) && w >= 0.0 && u >= 0.0
    ensures (1.0 + w * b.pos) * (1.0 + u * b.rate) - (w * b.cross) * (u * b.cross) > 0.0
  {
    var det := b.pos * b.rate - b.cross * b.cross;
    ProductIsNonNegative(w, b.pos);
    ProductIsNonNegative(u, b.rate);
    ProductIsNonNegative(w, u);
    ProductIsNonNegative(w * u, det);
    assert (w * b.pos) * (u * b.rate) - (w * b.cross) * (u * b.cross) == w * u * det;
    assert (1.0 + w * b.pos) * (1.0 + u * b.rate) == 1.0 + w * b.pos + u * b.rate + (w * b.pos) * (u * b.rate);
  }

  /** One row of the equation, for two candidates. */
  lemma RowDifference(b: Block, w: real, u: real, x: real, y: real, x': real, y': real, p: real, q: real)
    requires RowAdds(b, x, y, w, u, p, q) && RowAdds(b, x', y', w, u, p, q)
    ensures (x - x') * (1.0 + w * b.pos) + (y - y') * (u * b.cross) == 0.0
    ensures (x - x') * (w * b.cross) + (y - y') * (1.0 + u * b.rate) == 0.0
  {
    assert (x - x') * (1.0 + w * b.pos) == (x + x * w * b.pos) - (x' + x' * w * b.pos);
    assert (y - y') * (u * b.cross) == y * u * b.cross - y' * u * b.cross;
    assert (x - x') * (w * b.cross) == x * w * b.cross - x' * w * b.cross;
    assert (y - y') * (1.0 + u * b.rate) == (y + y * u * b.rate) - (y' + y' * u * b.rate);
  }

  lemma RowSettles(b: Block, w: real, u: real, x: real, y: real, x': real, y': real, p: real, q: real)
    requires Good(b) && w >= 0.0 && u >= 0.0
    requires RowAdds(b, x, y, w, u, p, q) && RowAdds(b, x', y', w, u, p, q)
    ensures x == x' && y == y'
  {
    hide Good, RowAdds;
    RowDifference(b, w, u, x, y, x', y', p, q);
    InformationDeterminant(b, w, u);
    var p', q', r', s' :|
      p' == 1.0 + w * b.pos && q' == w * b.cross && r' == u * b.cross && s' == 1.0 + u * b.rate;
    OnlyZeroSolves(x - x', y - y', p', q', r', s');
  }

  /** The information added settles the corrected covariance. */
  lemma InformationSettles(before: Block, one: Block, two: Block, w: real, u: real)
    requires Good(before) && w >= 0.0 && u >= 0.0
    requires AddsInformation(before, one, w, u) && AddsInformation(before, two, w, u)
    ensures one == two
  {
    hide Good, RowAdds;
    RowSettles(before, w, u, one.pos, one.cross, two.pos, two.cross, before.pos, before.cross);
    RowSettles(before, w, u, one.cross, one.rate, two.cross, two.rate, before.cross, before.rate);
  }

  // ----- The whole filter -----

  function PositionWeight(t: Tuning): real
    requires t.Valid()
  {
    Precision(t.positionNm)
  }

  function SpeedWeight(t: Tuning, z: Measurement): real
    requires t.Valid()
  {
    if z.velocityKt.Some? then Precision(t.speedKt) else 0.0
  }

  function AltitudeWeight(t: Tuning, z: Measurement): real
    requires t.Valid()
  {
    if z.altitudeFt.Some? then Precision(t.altitudeFt) else 0.0
  }

  /** A reported vertical rate is taken to be four times as uncertain, in feet per minute, as an altitude in
      feet. */
  function VerticalRateWeight(t: Tuning, z: Measurement): real
    requires t.Valid()
  {
    if z.verticalRateFpm.Some? then Precision(4.0 * t.altitudeFt) else 0.0
  }

  /** How far a reported value was off the state; nothing if none was reported. */
  function Off(reported: Option<real>, state: real): real {
    if reported.Some? then reported.value - state else 0.0
  }

  function EastKt(z: Measurement): Option<real> {
    if z.velocityKt.Some? then Some(z.velocityKt.value.0) else None
  }

  function NorthKt(z: Measurement): Option<real> {
    if z.velocityKt.Some? then Some(z.velocityKt.value.1) else None
  }

  /** The corrected belief, in terms of the measurements' information and how far each was off. */
  predicate Informed(t: Tuning, s: Belief, z: Measurement, after: Belief)
    requires t.Valid()
  {
    var (p, v, a, r) := (PositionWeight(t), SpeedWeight(t, z), AltitudeWeight(t, z), VerticalRateWeight(t, z));
    var (x, y) := (s.mean, after.mean);
    && AddsInformation(s.blocks[0], after.blocks[0], p, v)
    && AddsInformation(s.blocks[1], after.blocks[1], p, v)
    && AddsInformation(s.blocks[2], after.blocks[2], a, r)
    && MovesBy(after.blocks[0], p, v, z.eastNm - x[EAST], Off(EastKt(z), x[VEAST]), y[EAST] - x[EAST],
               y[VEAST] - x[VEAST])
    && MovesBy(after.blocks[1], p, v, z.northNm - x[NORTH], Off(NorthKt(z), x[VNORTH]), y[NORTH] - x[NORTH],
               y[VNORTH] - x[VNORTH])
    && MovesBy(after.blocks[2], a, r, Off(z.altitudeFt, x[ALT]), Off(z.verticalRateFpm, x[VRATE]), y[ALT] - x[ALT],
               y[VRATE] - x[VRATE])
  }

  lemma WeightsAre(t: Tuning, z: Measurement)
    requires t.Valid() && AllPositive(VariancesOf(t, z))
    ensures var vs := VariancesOf(t, z);
      && Weight(vs[EAST]) == Weight(vs[NORTH]) == PositionWeight(t)
      && Weight(vs[VEAST]) == Weight(vs[VNORTH]) == SpeedWeight(t, z)
      && Weight(vs[ALT]) == AltitudeWeight(t, z) && Weight(vs[VRATE]) == VerticalRateWeight(t, z)
  {
    assert t.altitudeFt * 4.0 * (t.altitudeFt * 4.0) == 4.0 * t.altitudeFt * (4.0 * t.altitudeFt);
  }

  lemma BlocksAdd(t: Tuning, s: Belief, z: Measurement, sqrt: real -> real)
    requires t.Valid() && AllGood(s.blocks)
    ensures var after := Folded(t, s, z, sqrt);
      && AddsInformation(s.blocks[0], after.blocks[0], PositionWeight(t), SpeedWeight(t, z))
      && AddsInformation(s.blocks[1], after.blocks[1], PositionWeight(t), SpeedWeight(t, z))
      && AddsInformation(s.blocks[2], after.blocks[2], AltitudeWeight(t, z), VerticalRateWeight(t, z))
  {
    hide AddsInformation, Correction, Measured, Weight, PositionWeight, SpeedWeight, AltitudeWeight,
      VerticalRateWeight, Good, CorrectedMean;
    VariancesArePositive(t, z);
    WeightsAre(t, z);
    var (bs, vs) := (s.blocks, VariancesOf(t, z));
    CorrectionAdds(bs[0], vs[EAST], vs[VEAST]);
    CorrectionAdds(bs[1], vs[NORTH], vs[VNORTH]);
    CorrectionAdds(bs[2], vs[ALT], vs[VRATE]);
  }

  lemma PairMoves(b: Block, vp: Option<real>, vr: Option<real>, offPos: real, offRate: real, byPos: real,
                  byRate: real)
    requires Good(b) && Positive(vp) && Positive(vr)
    requires var g := GainsFor(b, vp, vr);
      byPos == g.pp * offPos + g.pr * offRate && byRate == g.rr * offRate + g.rp * offPos
    ensures MovesBy(Correction(b, vp, vr), Weight(vp), Weight(vr), offPos, offRate, byPos, byRate)
  {
    hide GainsFor, Weight, Good, Correction;
    GainsAreWeights(b, vp, vr);
  }

  /** The moves of one pair's states in terms of its gains. */
  lemma MeanByGains(t: Tuning, bs: Triple, z: Measurement, x: Mean, i: State)
    requires AllGood(bs) && AllPositive(VariancesOf(t, z)) && IsPosition(i)
    ensures var (vs, g) := (VariancesOf(t, z), GainsFor(bs[BlockIndex(i)], VariancesOf(t, z)[i],
                                                         VariancesOf(t, z)[Partner(i)]));
      var (off, offRate) := (Surprise(t, z, x, i), Surprise(t, z, x, Partner(i)));
      && CorrectedMean(t, bs, z, x, i) - x[i] == g.pp * off + g.pr * offRate
      && CorrectedMean(t, bs, z, x, Partner(i)) - x[Partner(i)] == g.rr * offRate + g.rp * off
  {
    hide Surprise, GainsFor, Good, VariancesOf;
    PartnerIsInvolution(i, Partner(i));
  }

  lemma SurprisesAre(t: Tuning, z: Measurement, x: Mean)
    ensures Surprise(t, z, x, EAST) == z.eastNm - x[EAST] && Surprise(t, z, x, NORTH) == z.northNm - x[NORTH]
    ensures Surprise(t, z, x, VEAST) == Off(EastKt(z), x[VEAST])
    ensures Surprise(t, z, x, VNORTH) == Off(NorthKt(z), x[VNORTH])
    ensures Surprise(t, z, x, ALT) == Off(z.altitudeFt, x[ALT])
    ensures Surprise(t, z, x, VRATE) == Off(z.verticalRateFpm, x[VRATE])
  {
  }

  /** Folding in a report adds its information to the belief's, pair by pair, and nothing else; and the last
      innovation is the distance of the reported position from the propagated one. */
  lemma FoldingAddsInformation(t: Tuning, s: Belief, z: Measurement, sqrt: real -> real)
    requires t.Valid() && AllGood(s.blocks) && IsSqrt(sqrt)
    ensures var after := Folded(t, s, z, sqrt);
      && Informed(t, s, z, after)
      && after.innovationNm >= 0.0
      && after.innovationNm * after.innovationNm
         == (z.eastNm - s.mean[EAST]) * (z.eastNm - s.mean[EAST])
            + (z.northNm - s.mean[NORTH]) * (z.northNm - s.mean[NORTH])
  {
    hide AddsInformation, Correction, Measured, Weight, PositionWeight, SpeedWeight, AltitudeWeight,
      VerticalRateWeight, Good, CorrectedMean, GainsFor, MovesBy, Surprise, Off, IsSqrt;
    var (bs, vs, x) := (s.blocks, VariancesOf(t, z), s.mean);
    VariancesArePositive(t, z);
    WeightsAre(t, z);
    BlocksAdd(t, s, z, sqrt);
    SurprisesAre(t, z, x);
    MeanByGains(t, bs, z, x, EAST);
    MeanByGains(t, bs, z, x, NORTH);
    MeanByGains(t, bs, z, x, ALT);
    var y := Folded(t, s, z, sqrt).mean;
    PairMoves(bs[0], vs[EAST], vs[VEAST], Surprise(t, z, x, EAST), Surprise(t, z, x, VEAST), y[EAST] - x[EAST],
              y[VEAST] - x[VEAST]);
    PairMoves(bs[1], vs[NORTH], vs[VNORTH], Surprise(t, z, x, NORTH), Surprise(t, z, x, VNORTH), y[NORTH] - x[NORTH],
              y[VNORTH] - x[VNORTH]);
    PairMoves(bs[2], vs[ALT], vs[VRATE], Surprise(t, z, x, ALT), Surprise(t, z, x, VRATE), y[ALT] - x[ALT],
              y[VRATE] - x[VRATE]);
    InnovationIsDistance(sqrt, z.eastNm - x[EAST], z.northNm - x[NORTH]);
  }

  lemma InnovationIsDistance(sqrt: real -> real, east: real, north: real)
    requires IsSqrt(sqrt)
    ensures var d := sqrt(MissSq(east, north)); d >= 0.0 && d * d == east * east + north * north
  {
    SumOfSquaresValue(east, north, MissSq(east, north));
  }

  /** A whole update: dead reckoning to the report's time, then its information added. */
  lemma UpdatePropagatesAndAdds(t: Tuning, s: Belief, dt: real, z: Measurement, sqrt: real -> real)
    requires t.Valid() && AllGood(s.blocks) && IsSqrt(sqrt) && dt > 0.0
    ensures var (c, after) := (Coasted(t, s, dt), FilterRuns.Step(t, s, FilterRuns.Correct(dt, z), sqrt));
      Propagated(t, s.mean, s.blocks, c.mean, c.blocks, dt) && Informed(t, c, z, after)
  {
    hide Propagated, Informed, Coasted, Folded, AllGood, IsSqrt;
    CoastingPropagates(t, s, dt);
    CoastingKeepsGood(t, s, dt);
    FoldingAddsInformation(t, Coasted(t, s, dt), z, sqrt);
  }
}
