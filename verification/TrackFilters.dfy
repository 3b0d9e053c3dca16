/** The filter object (kalman.py), proved to compute on three blocks what it computes on six-by-six
    matrices. */
module TrackFilters {
  import opened Prelude
  import opened Matrix
  import opened Blocks
  import opened Kalman
  import opened KalmanUpdate
  import opened KalmanFilter
  import opened Propagation

  /** What the filter amounts to: its state estimate, its three blocks, and the last innovation. */
  datatype Belief = Belief(mean: Mean, blocks: Triple, innovationNm: real)

  function BlocksOf(p: Mat): Triple {
    [Block(At(p, EAST, EAST), At(p, EAST, VEAST), At(p, VEAST, VEAST)),
     Block(At(p, NORTH, NORTH), At(p, NORTH, VNORTH), At(p, VNORTH, VNORTH)),
     Block(At(p, ALT, ALT), At(p, ALT, VRATE), At(p, VRATE, VRATE))]
  }

  lemma RepresentsOnlyItsBlocks(p: Mat, bs: Triple)
    requires Represents(p, bs)
    ensures BlocksOf(p) == bs
  {
    assert At(p, EAST, EAST) == bs[0].pos && At(p, EAST, VEAST) == bs[0].cross && At(p, VEAST, VEAST) == bs[0].rate;
    assert At(p, NORTH, NORTH) == bs[1].pos && At(p, NORTH, VNORTH) == bs[1].cross
      && At(p, VNORTH, VNORTH) == bs[1].rate;
    assert At(p, ALT, ALT) == bs[2].pos && At(p, ALT, VRATE) == bs[2].cross && At(p, VRATE, VRATE) == bs[2].rate;
  }

  function InitialBlocks(t: Tuning): Triple {
    [Block(t.initialPositionNm * t.initialPositionNm, 0.0, t.initialVelocityKt * t.initialVelocityKt),
     Block(t.initialPositionNm * t.initialPositionNm, 0.0, t.initialVelocityKt * t.initialVelocityKt),
     Block(t.initialAltitudeFt * t.initialAltitudeFt, 0.0, t.initialVerticalRateFpm * t.initialVerticalRateFpm)]
  }

  /** The standard deviation each state starts with. */
  function InitialSigma(t: Tuning, i: State): real {
    if i == EAST || i == NORTH then t.initialPositionNm
    else if i == VEAST || i == VNORTH then t.initialVelocityKt
    else if i == ALT then t.initialAltitudeFt
    else t.initialVerticalRateFpm
  }

  lemma InitialVariances(t: Tuning, i: State, j: State)
    ensures Entry(InitialBlocks(t), i, j) == if i == j then InitialSigma(t, i) * InitialSigma(t, i) else 0.0
  {
  }

  lemma IndependentIsGood(a: real, b: real, c: Block)
    requires a > 0.0 && b > 0.0 && c == Block(a * a, 0.0, b * b)
    ensures Good(c)
  {
    ProductValue(a, a, c.pos);
    ProductValue(b, b, c.rate);
    ProductValue(c.pos, c.rate, c.pos * c.rate);
  }

  lemma InitialIsGood(t: Tuning)
    requires t.Valid()
    ensures AllGood(InitialBlocks(t))
  {
    var bs := InitialBlocks(t);
    IndependentIsGood(t.initialPositionNm, t.initialVelocityKt, bs[0]);
    IndependentIsGood(t.initialPositionNm, t.initialVelocityKt, bs[1]);
    IndependentIsGood(t.initialAltitudeFt, t.initialVerticalRateFpm, bs[2]);
    hide InitialBlocks;
  }

  // ----- The two steps, on beliefs -----

  function PredictedMeans(x: Mean, dt: real): (r: Mean)
    ensures forall i: State :: r[i] == PredictedMean(x, dt, i)
  {
    [PredictedMean(x, dt, 0), PredictedMean(x, dt, 1), PredictedMean(x, dt, 2),
     PredictedMean(x, dt, 3), PredictedMean(x, dt, 4), PredictedMean(x, dt, 5)]
  }

  function CorrectedMeans(t: Tuning, bs: Triple, z: Measurement, x: Mean): (r: Mean)
    requires AllGood(bs) && AllPositive(VariancesOf(t, z))
    ensures forall i: State :: r[i] == CorrectedMean(t, bs, z, x, i)
  {
    hide AllGood, AllPositive, VariancesOf, CorrectedMean;
    [CorrectedMean(t, bs, z, x, 0), CorrectedMean(t, bs, z, x, 1), CorrectedMean(t, bs, z, x, 2),
     CorrectedMean(t, bs, z, x, 3), CorrectedMean(t, bs, z, x, 4), CorrectedMean(t, bs, z, x, 5)]
  }

  /** Propagation; an interval that is not positive changes nothing. */
  function Coasted(t: Tuning, s: Belief, dt: real): Belief {
    if dt <= 0.0 then s
    else Belief(PredictedMeans(s.mean, dt), PredictBlocks(t, s.blocks, dt), s.innovationNm)
  }

  /** What coasting does to a belief, in the units of its states. */
  lemma CoastingPropagates(t: Tuning, s: Belief, dt: real)
    ensures var c := Coasted(t, s, dt);
      if dt > 0.0 then Propagated(t, s.mean, s.blocks, c.mean, c.blocks, dt) && c.innovationNm == s.innovationNm
      else c == s
  {
    hide PredictBlocks, PredictedMean, Propagated;
    if dt > 0.0 { PredictionPropagates(t, s.mean, s.blocks, PredictedMeans(s.mean, dt), dt); }
  }

  lemma CoastingKeepsGood(t: Tuning, s: Belief, dt: real)
    requires t.Valid() && AllGood(s.blocks)
    ensures AllGood(Coasted(t, s, dt).blocks)
    ensures dt > 0.0 ==> forall i: State :: Variance(Coasted(t, s, dt).blocks, i) > Variance(s.blocks, i)
  {
    if dt > 0.0 {
      BlockGrows(t, s.blocks, dt, 0);
      BlockGrows(t, s.blocks, dt, 1);
      BlockGrows(t, s.blocks, dt, 2);
      hide PredictBlock, PredictedMean, Good;
    }
  }

  lemma BlockGrows(t: Tuning, bs: Triple, dt: real, k: int)
    requires t.Valid() && AllGood(bs) && 0 <= k < 3 && dt > 0.0
    ensures var b := PredictBlock(t, bs, dt, k); Good(b) && b.pos > bs[k].pos && b.rate > bs[k].rate
  {
    ProductValue(t.accelKtS, t.accelKtS, t.accelKtS * t.accelKtS);
    ProductValue(t.verticalFpmS, t.verticalFpmS, t.verticalFpmS * t.verticalFpmS);
    PredictionGrows(bs[k], dt, RateGain(k), AccelVar(t, k));
    hide Predicted, Good;
  }

  function MissSq(dx: real, dy: real): real {
    dx * dx + dy * dy
  }

  /** Folding a report into an already propagated belief. */
  function Folded(t: Tuning, s: Belief, z: Measurement, sqrt: real -> real): Belief
    requires t.Valid() && AllGood(s.blocks)
  {
    VariancesArePositive(t, z);
    Belief(CorrectedMeans(t, s.blocks, z, s.mean),
           CorrectBlocks(s.blocks, VariancesOf(t, z)), sqrt(MissSq(z.eastNm - s.mean[EAST], z.northNm - s.mean[NORTH])))
  }

  lemma FoldingKeepsGood(t: Tuning, s: Belief, z: Measurement, sqrt: real -> real)
    requires t.Valid() && AllGood(s.blocks)
    ensures AllGood(Folded(t, s, z, sqrt).blocks)
    ensures forall i: State :: Variance(Folded(t, s, z, sqrt).blocks, i) <= Variance(s.blocks, i)
    ensures forall i: State :: Measured(t, z, i).Some? ==>
      Variance(Folded(t, s, z, sqrt).blocks, i) < Variance(s.blocks, i)
  {
    VariancesArePositive(t, z);
    var (bs, vs) := (s.blocks, VariancesOf(t, z));
    hide Measured, Correction, Good, CorrectedMean;
    CorrectionKeepsGood(bs[0], vs[EAST], vs[VEAST]);
    CorrectionKeepsGood(bs[1], vs[NORTH], vs[VNORTH]);
    CorrectionKeepsGood(bs[2], vs[ALT], vs[VRATE]);
    CorrectionLowersVariance(bs[0], vs[EAST], vs[VEAST]);
    CorrectionLowersVariance(bs[1], vs[NORTH], vs[VNORTH]);
    CorrectionLowersVariance(bs[2], vs[ALT], vs[VRATE]);
  }

  /** After a correction each horizontal position variance is below the sensor's own. */
  lemma FoldingBeatsTheSensor(t: Tuning, s: Belief, z: Measurement, sqrt: real -> real)
    requires t.Valid() && AllGood(s.blocks)
    ensures 0.0 < Variance(Folded(t, s, z, sqrt).blocks, EAST) < PositionVar(t)
    ensures 0.0 < Variance(Folded(t, s, z, sqrt).blocks, NORTH) < PositionVar(t)
  {
    VariancesArePositive(t, z);
    var (bs, vs) := (s.blocks, VariancesOf(t, z));
    assert vs[EAST] == vs[NORTH] == Some(PositionVar(t));
    hide Measured, Correction, Good, CorrectedMean, PositionVar, VariancesOf;
    MeasuredBelowSensor(bs[0], vs[EAST], vs[VEAST]);
    MeasuredBelowSensor(bs[1], vs[NORTH], vs[VNORTH]);
  }

  // ----- The filter object -----

  class TrackFilter {
    const tuning: Tuning
    var x: Mean
    var p: Mat
    var lastInnovationNm: real

    function State(): Belief
      reads this
    {
      Belief(x, BlocksOf(p), lastInnovationNm)
    }

    ghost predicate Valid()
      reads this
    {
      tuning.Valid() && Represents(p, BlocksOf(p)) && AllGood(BlocksOf(p))
    }

    constructor (t: Tuning, initial: Mean)
      requires t.Valid()
      ensures Valid() && tuning == t && State() == Belief(initial, InitialBlocks(t), 0.0)
      ensures forall i: State, j: State :: At(p, i, j) == if i == j then InitialSigma(t, i) * InitialSigma(t, i)
        else 0.0
    {
      tuning, x, lastInnovationNm := t, initial, 0.0;
      p := DiagonalOf(InitialBlocks(t));
      new;
      InitialIsGood(t);
      hide InitialBlocks, InitialSigma, Entry;
      forall i: State, j: State
        ensures At(p, i, j) == if i == j then InitialSigma(t, i) * InitialSigma(t, i) else 0.0
      {
        InitialVariances(t, i, j);
      }
      RepresentsOnlyItsBlocks(p, InitialBlocks(t));
    }

    method Predict(dt: real)
      requires Valid()
      modifies this
      ensures Valid() && State() == Coasted(tuning, old(State()), dt)
      ensures dt <= 0.0 ==> State() == old(State())
      ensures dt > 0.0 ==> Propagated(tuning, old(x), BlocksOf(old(p)), x, BlocksOf(p), dt)
    {
      hide PredictedMean, PredictBlocks, NoiseBlocks, AllGood, Represents, BlocksOf, IsTransition,
        PredictedCovariance, Variance,
        Apply, PredictedMeans, Propagated;
      ghost var before := State();
      CoastingPropagates(tuning, before, dt);
      CoastingKeepsGood(tuning, before, dt);
      if dt <= 0.0 { return; }
      var f := Transition(dt);
      var q := ProcessNoise(tuning, dt);
      forall i | 0 <= i < 6 ensures Apply(f, 6, x)[i] == PredictedMean(x, dt, i) {
        TransitionOfMean(f, x, dt, i);
      }
      PredictionDecouples(tuning, f, p, q, BlocksOf(p), dt);
      RepresentsOnlyItsBlocks(PredictedCovariance(f, p, q), PredictBlocks(tuning, BlocksOf(p), dt));
      x := Apply(f, 6, x);
      p := PredictedCovariance(f, p, q);
      assert x == Coasted(tuning, before, dt).mean;
    }

    /** Predict, then fold in whatever the report contained. */
    method Update(dt: real, z: Measurement, inverse: (Mat, nat) -> Mat, sqrt: real -> real)
      requires Valid() && Inverts(inverse)
      modifies this
      ensures Valid() && AllGood(Coasted(tuning, old(State()), dt).blocks)
      ensures State() == Folded(tuning, Coasted(tuning, old(State()), dt), z, sqrt)
    {
      hide AllGood, Represents, BlocksOf, Inverts, Coasted, Folded, Measured, Variance;
      Predict(dt);
      ghost var s := State();
      FoldingKeepsGood(tuning, s, z, sqrt);
      x, p, lastInnovationNm := Correct(tuning, s, x, p, z, inverse, sqrt);
    }
  }

  /** The correction proper, from a propagated state and covariance. */
  method Correct(t: Tuning, ghost s: Belief, x: Mean, p: Mat, z: Measurement,
                 inverse: (Mat, nat) -> Mat, sqrt: real -> real)
    returns (xOut: Mean, pOut: Mat, innovationNm: real)
    requires t.Valid() && x == s.mean && AllGood(s.blocks) && Represents(p, s.blocks) && Inverts(inverse)
    ensures Represents(pOut, Folded(t, s, z, sqrt).blocks)
    ensures Belief(xOut, BlocksOf(pOut), innovationNm) == Folded(t, s, z, sqrt)
  {
    hide AllGood, AllPositive, VariancesOf, Represents, BlocksOf, Inverts, Lists, IsSelection, IsDiagonal,
      ReportedValue,
      MissSq, CorrectBlocks, CorrectedMean, Apply, Gain, JosephMatrix, IsGain, Measured, CorrectedMeans, Plus6;
    VariancesArePositive(t, z);
    var rows, variances, h, r, innovation := Measure(t, z, x);
    var m := |rows|;
    var gain := Gain(h, p, inverse(Innovation(h, p, r, m), m), m);
    CovarianceIsFolded(inverse, gain, h, p, r, rows, variances, s.blocks, VariancesOf(t, z));
    MeanIsFolded(gain, rows, variances, t, z, s, innovation);
    innovationNm := sqrt(MissSq(innovation[0], innovation[1]));
    xOut := Plus6(x, Apply(gain, 6, innovation));
    pOut := JosephMatrix(gain, h, p, r, m);
  }

  /** Everything the report contributes: rows, selection matrix, noise, and the innovation. */
  method Measure(t: Tuning, z: Measurement, x: Mean)
    returns (rows: seq<State>, variances: seq<real>, h: Mat, r: Mat, innovation: seq<real>)
    ensures Lists(rows, variances, VariancesOf(t, z)) && IsSelection(h, rows) && IsDiagonal(r, variances)
    ensures |innovation| == |rows| >= 2
    ensures innovation[0] == z.eastNm - x[EAST] && innovation[1] == z.northNm - x[NORTH]
    ensures forall a :: 0 <= a < |rows| ==> innovation[a] == ReportedValue(z, rows[a]) - x[rows[a]]
  {
    hide VariancesOf, Lists, IsSelection, IsDiagonal, Apply;
    var values;
    rows, values, variances := MeasurementRows(t, z);
    h := SelectionMatrix(rows);
    r := Diagonal(variances);
    innovation := Subtract(values, Apply(h, |rows|, x));
    ReportedLessPredicted(h, rows, values, z, x, innovation);
  }

  /** The program's formula for the corrected covariance stands for the folded blocks. */
  lemma CovarianceIsFolded(inverse: (Mat, nat) -> Mat, gain: Mat, h: Mat, p: Mat, r: Mat, rows: seq<State>,
                           variances: seq<real>, bs: Triple, vs: Variances)
    requires Inverts(inverse) && Setting(h, p, r, rows, variances, bs, vs)
    requires gain == Gain(h, p, inverse(Innovation(h, p, r, |rows|), |rows|), |rows|)
    ensures IsGain(gain, rows, bs, vs)
    ensures Represents(JosephMatrix(gain, h, p, r, |rows|), CorrectBlocks(bs, vs))
    ensures BlocksOf(JosephMatrix(gain, h, p, r, |rows|)) == CorrectBlocks(bs, vs)
  {
    assert AllGood(bs) && AllPositive(vs);
    hide Setting, AllGood, AllPositive, CorrectBlocks, Represents, BlocksOf, JosephMatrix, Gain, IsGain, Inverts;
    GainIsBlockGain(inverse, gain, h, p, r, rows, variances, bs, vs);
    CorrectionDecouples(gain, h, p, r, rows, variances, bs, vs);
    RepresentsOnlyItsBlocks(JosephMatrix(gain, h, p, r, |rows|), CorrectBlocks(bs, vs));
  }

  /** The program's matrix formula for the corrected state is the folded one. */
  lemma MeanIsFolded(gain: Mat, rows: seq<State>, variances: seq<real>, t: Tuning, z: Measurement, s: Belief,
                     innovation: seq<real>)
    requires t.Valid() && AllGood(s.blocks) && AllPositive(VariancesOf(t, z))
    requires Lists(rows, variances, VariancesOf(t, z)) && IsGain(gain, rows, s.blocks, VariancesOf(t, z))
    requires |innovation| == |rows|
    requires forall a :: 0 <= a < |rows| ==> innovation[a] == ReportedValue(z, rows[a]) - s.mean[rows[a]]
    ensures Plus6(s.mean, Apply(gain, 6, innovation)) == CorrectedMeans(t, s.blocks, z, s.mean)
  {
    hide AllGood, AllPositive, VariancesOf, CorrectBlocks, CorrectedMean, ReportedValue, IsGain, Lists, Apply;
    MeanIsCorrected(gain, rows, variances, t, s.blocks, z, s.mean, innovation);
  }

  function DiagonalOf(bs: Triple): (p: Mat)
    requires forall k :: 0 <= k < 3 ==> bs[k].cross == 0.0
    ensures Represents(p, bs)
  {
    Build(6, 6, (i, j) => if i == j && 0 <= i < 6 then Variance(bs, i) else 0.0)
  }

  function Subtract(a: seq<real>, b: seq<real>): (c: seq<real>)
    requires |a| == |b|
  {
    seq(|a|, i requires 0 <= i < |a| => a[i] - b[i])
  }

  function Plus6(a: Mean, b: seq<real>): (c: Mean)
    requires |b| == 6
  {
    seq(6, i requires 0 <= i < 6 => a[i] + b[i])
  }

  lemma ReportedLessPredicted(h: Mat, rows: seq<State>, values: seq<real>, z: Measurement, x: Mean,
                              innovation: seq<real>)
    requires IsSelection(h, rows) && |values| == |rows|
    requires forall a :: 0 <= a < |rows| ==> values[a] == ReportedValue(z, rows[a])
    requires innovation == Subtract(values, Apply(h, |rows|, x))
    ensures |innovation| == |rows|
    ensures forall a :: 0 <= a < |rows| ==> innovation[a] == ReportedValue(z, rows[a]) - x[rows[a]]
  {
    hide ReportedValue, Dot;
    forall a | 0 <= a < |rows| ensures Apply(h, |rows|, x)[a] == x[rows[a]] {
      SelectedMean(h, rows, x, a);
    }
  }

  /** Whatever inverse the platform computes, the gain is the one the blocks prescribe. */
  lemma GainIsBlockGain(inverse: (Mat, nat) -> Mat, gain: Mat, h: Mat, p: Mat, r: Mat, rows: seq<State>,
                        variances: seq<real>, bs: Triple, vs: Variances)
    requires Inverts(inverse) && Setting(h, p, r, rows, variances, bs, vs)
    requires gain == Gain(h, p, inverse(Innovation(h, p, r, |rows|), |rows|), |rows|)
    ensures IsGain(gain, rows, bs, vs)
  {
    PlatformInverseIsBlockInverse(inverse, h, p, r, rows, variances, bs, vs);
    assert AllGood(bs) && AllPositive(vs);
    hide Setting, BlockInverse, Innovation, Inverts, GainEntry;
    forall i: State, a | 0 <= a < |rows| ensures At(gain, i, a) == GainEntry(bs, vs, i, rows[a]) {
      GainEntries(h, p, r, rows, variances, bs, vs, i, a);
    }
  }

  lemma MeanIsCorrected(gain: Mat, rows: seq<State>, variances: seq<real>, t: Tuning, bs: Triple, z: Measurement,
                        x: Mean,
                        innovation: seq<real>)
    requires AllGood(bs) && AllPositive(VariancesOf(t, z)) && Lists(rows, variances, VariancesOf(t, z))
    requires IsGain(gain, rows, bs, VariancesOf(t, z)) && |innovation| == |rows|
    requires forall a :: 0 <= a < |rows| ==> innovation[a] == ReportedValue(z, rows[a]) - x[rows[a]]
    ensures forall i: State :: x[i] + Apply(gain, 6, innovation)[i] == CorrectedMean(t, bs, z, x, i)
  {
    hide GainEntry, Dot, Surprise, ReportedValue, AllPositive, VariancesOf, Lists, IsGain, AllGood;
    forall i: State ensures x[i] + Apply(gain, 6, innovation)[i] == CorrectedMean(t, bs, z, x, i) {
      var s, u :| s == GainEntry(bs, VariancesOf(t, z), i, i) * Surprise(t, z, x, i)
               && u == GainEntry(bs, VariancesOf(t, z), i, Partner(i)) * Surprise(t, z, x, Partner(i));
      CorrectionOfMean(gain, rows, variances, t, bs, z, x, innovation, i, s, u);
    }
  }
}
