/** What a report says to a track's filter (estimator.py with kalman.py): which reading goes to which state, and how
    the first estimate is made of the first report. */
module Readings {
  import opened Prelude
  import opened Blocks
  import opened Kalman
  import opened KalmanUpdate
  import opened KalmanFilter
  import opened TrackFilters
  import opened Information
  import opened Estimator

  /** Position in the track's own plane, velocity as speed times the direction of the track if both were reported,
      altitude and vertical rate as reported. */
  predicate Reads(p: Projection, origin: (real, real), r: Report, z: Measurement) {
    && (z.eastNm, z.northNm) == p.toLocal(origin, r.lat, r.lon)
    && z.altitudeFt == r.altitudeFt && z.verticalRateFpm == r.verticalRateFpm
    && (z.velocityKt.Some? <==> r.speedKt.Some? && r.trackDeg.Some?)
    && (z.velocityKt.Some? ==>
          && z.velocityKt.value.0 == r.speedKt.value * p.direction(r.trackDeg.value).0
          && z.velocityKt.value.1 == r.speedKt.value * p.direction(r.trackDeg.value).1)
  }

  lemma MeasurementReads(p: Projection, origin: (real, real), r: Report)
    ensures Reads(p, origin, r, MeasurementOf(p, origin, r))
  {
  }

  /** Taking the state for the reading. */
  predicate AgreesWith(x: Mean, z: Measurement) {
    && x[EAST] == z.eastNm && x[NORTH] == z.northNm
    && (z.altitudeFt.Some? ==> x[ALT] == z.altitudeFt.value)
    && (z.verticalRateFpm.Some? ==> x[VRATE] == z.verticalRateFpm.value)
    && (z.velocityKt.Some? ==> x[VEAST] == z.velocityKt.value.0 && x[VNORTH] == z.velocityKt.value.1)
  }

  /** A track's first estimate is its first report, as uncertain as the tuning says each state is at first; what the
      report leaves out is zero. */
  lemma FirstEstimateIsReport(s: Setup, r: Report)
    ensures var (b, p) := (InitialFilter(s, r), s.projection);
      && AgreesWith(b.mean, MeasurementOf(p, p.origin(r.lat, r.lon), r))
      && (r.altitudeFt.None? ==> b.mean[ALT] == 0.0) && (r.verticalRateFpm.None? ==> b.mean[VRATE] == 0.0)
      && (r.speedKt.None? ==> b.mean[VEAST] == 0.0 && b.mean[VNORTH] == 0.0)
      && b.innovationNm == 0.0
      && forall i: State, j: State ::
           Entry(b.blocks, i, j) == if i == j then InitialSigma(s.tuning, i) * InitialSigma(s.tuning, i) else 0.0
  {
    hide Entry, InitialSigma, AllGood;
    forall i: State, j: State
      ensures Entry(InitialBlocks(s.tuning), i, j)
           == if i == j then InitialSigma(s.tuning, i) * InitialSigma(s.tuning, i) else 0.0
    {
      InitialVariances(s.tuning, i, j);
    }
  }

  /** Told again what it already holds, a filter keeps its state. */
  lemma NoSurpriseNoMove(t: Tuning, s: Belief, z: Measurement, sqrt: real -> real)
    requires t.Valid() && AllGood(s.blocks) && AgreesWith(s.mean, z)
    ensures Folded(t, s, z, sqrt).mean == s.mean
  {
    hide GainEntry, Good, Correction, VariancesOf;
    VariancesArePositive(t, z);
    var after := Folded(t, s, z, sqrt).mean;
    forall i: State ensures Surprise(t, z, s.mean, i) == 0.0 { NoSurprise(t, z, s.mean, i); }
    hide Surprise;
    forall i: State ensures after[i] == s.mean[i] {
      assert after[i] == CorrectedMean(t, s.blocks, z, s.mean, i);
    }
  }

  lemma NoSurprise(t: Tuning, z: Measurement, x: Mean, i: State)
    requires AgreesWith(x, z)
    ensures Surprise(t, z, x, i) == 0.0
  {
  }
}
