/** What a report contributes to a correction (kalman.py): the rows it measures, their variances, and what
    the correction does to the state estimate. */
module KalmanFilter {
  import opened Prelude
  import opened Matrix
  import opened Blocks
  import opened Kalman
  import opened KalmanUpdate

  /** The fields a surveillance report actually carried, in the filter's coordinates: the position
      always, and the velocity only when both speed and track were present. */
  datatype Measurement = Measurement(
    eastNm: real,
    northNm: real,
    altitudeFt: Option<real>,
    velocityKt: Option<(real, real)>,
    verticalRateFpm: Option<real>)

  // Measurement variances.
  function PositionVar(t: Tuning): real { t.positionNm * t.positionNm }

  function AltitudeVar(t: Tuning): real { t.altitudeFt * t.altitudeFt }

  function SpeedVar(t: Tuning): real { t.speedKt * t.speedKt }

  function VerticalRateVar(t: Tuning): real { t.altitudeFt * 4.0 * (t.altitudeFt * 4.0) }

  /** Variance with which a report measures a state, if it does. */
  function Measured(t: Tuning, z: Measurement, i: State): Option<real> {
    if i == EAST || i == NORTH then Some(PositionVar(t))
    else if i == ALT then (if z.altitudeFt.Some? then Some(AltitudeVar(t)) else None)
    else if i == VRATE then (if z.verticalRateFpm.Some? then Some(VerticalRateVar(t)) else None)
    else if z.velocityKt.Some? then Some(SpeedVar(t)) else None
  }

  function VariancesOf(t: Tuning, z: Measurement): (vs: Variances)
    ensures forall i: State :: vs[i] == Measured(t, z, i)
  {
    [Measured(t, z, 0), Measured(t, z, 1), Measured(t, z, 2), Measured(t, z, 3), Measured(t, z, 4), Measured(t, z, 5)]
  }

  /** The reported value of a measured state. */
  function ReportedValue(z: Measurement, i: State): real {
    if i == EAST then z.eastNm
    else if i == NORTH then z.northNm
    else if i == ALT then (if z.altitudeFt.Some? then z.altitudeFt.value else 0.0)
    else if i == VRATE then (if z.verticalRateFpm.Some? then z.verticalRateFpm.value else 0.0)
    else if z.velocityKt.None? then 0.0
    else if i == VEAST then z.velocityKt.value.0 else z.velocityKt.value.1
  }

  lemma VariancesArePositive(t: Tuning, z: Measurement)
    requires t.Valid()
    ensures AllPositive(VariancesOf(t, z))
  {
    ProductValue(t.positionNm, t.positionNm, PositionVar(t));
    ProductValue(t.altitudeFt, t.altitudeFt, AltitudeVar(t));
    ProductValue(t.altitudeFt * 4.0, t.altitudeFt * 4.0, VerticalRateVar(t));
    ProductValue(t.speedKt, t.speedKt, SpeedVar(t));
  }

  /** Rows so far agree with the report and repeat no state. */
  ghost predicate Agrees(rows: seq<State>, values: seq<real>, variances: seq<real>, t: Tuning, z: Measurement) {
    && |rows| == |values| == |variances|
    && (forall a, b :: 0 <= a < b < |rows| ==> rows[a] != rows[b])
    && (forall a :: 0 <= a < |rows| ==> Measured(t, z, rows[a]) == Some(variances[a]))
    && (forall a :: 0 <= a < |rows| ==> ReportedValue(z, rows[a]) == values[a])
  }

  lemma AgreesWithOneMore(rows: seq<State>, values: seq<real>, variances: seq<real>, t: Tuning, z: Measurement,
                          i: State, value: real, variance: real)
    requires Agrees(rows, values, variances, t, z) && i !in rows
    requires Measured(t, z, i) == Some(variance) && ReportedValue(z, i) == value
    ensures Agrees(rows + [i], values + [value], variances + [variance], t, z)
  {
    hide Measured, ReportedValue;
  }

  /** What each field of the report contributes, state by state. */
  lemma FieldByField(t: Tuning, z: Measurement)
    ensures Measured(t, z, EAST) == Measured(t, z, NORTH) == Some(PositionVar(t))
    ensures ReportedValue(z, EAST) == z.eastNm && ReportedValue(z, NORTH) == z.northNm
    ensures z.altitudeFt.Some? ==>
      Measured(t, z, ALT) == Some(AltitudeVar(t)) && ReportedValue(z, ALT) == z.altitudeFt.value
    ensures z.velocityKt.Some? ==>
      Measured(t, z, VEAST) == Some(SpeedVar(t)) && ReportedValue(z, VEAST) == z.velocityKt.value.0
    ensures z.velocityKt.Some? ==>
      Measured(t, z, VNORTH) == Some(SpeedVar(t)) && ReportedValue(z, VNORTH) == z.velocityKt.value.1
    ensures z.verticalRateFpm.Some? ==>
      Measured(t, z, VRATE) == Some(VerticalRateVar(t)) && ReportedValue(z, VRATE) == z.verticalRateFpm.value
  {
    hide PositionVar, AltitudeVar, SpeedVar, VerticalRateVar;
  }

  lemma PositionAgrees(t: Tuning, z: Measurement)
    ensures Agrees([EAST, NORTH], [z.eastNm, z.northNm], [PositionVar(t), PositionVar(t)], t, z)
  {
    FieldByField(t, z);
    hide Measured, ReportedValue, PositionVar;
  }

  /** The measurement vector, built from the fields present, in the order the program appends them. */
  method MeasurementRows(t: Tuning, z: Measurement)
    returns (rows: seq<State>, values: seq<real>, variances: seq<real>)
    ensures Lists(rows, variances, VariancesOf(t, z)) && |values| == |rows| >= 2
    ensures rows[0] == EAST && rows[1] == NORTH
    ensures forall a :: 0 <= a < |rows| ==> values[a] == ReportedValue(z, rows[a])
  {
    hide Agrees, Measured, ReportedValue, PositionVar, AltitudeVar, SpeedVar, VerticalRateVar, VariancesOf;
    FieldByField(t, z);
    PositionAgrees(t, z);
    rows, values, variances := [EAST, NORTH], [z.eastNm, z.northNm], [PositionVar(t), PositionVar(t)];
    if z.altitudeFt.Some? {
      AgreesWithOneMore(rows, values, variances, t, z, ALT, z.altitudeFt.value, AltitudeVar(t));
      rows, values, variances := rows + [ALT], values + [z.altitudeFt.value], variances + [AltitudeVar(t)];
    }
    ghost var positions := rows;
    assert |positions| >= 2 && positions[0] == EAST && positions[1] == NORTH;
    assert forall i :: i in positions ==> IsPosition(i);
    assert z.altitudeFt.Some? ==> ALT in positions;
    if z.velocityKt.Some? {
      rows, values, variances := AppendVelocity(rows, values, variances, t, z);
    }
    if z.verticalRateFpm.Some? {
      AgreesWithOneMore(rows, values, variances, t, z, VRATE, z.verticalRateFpm.value, VerticalRateVar(t));
      rows, values, variances := rows + [VRATE], values + [z.verticalRateFpm.value], variances + [VerticalRateVar(t)];
    }
    assert positions <= rows;
    AgreesLists(rows, values, variances, t, z);
  }

  method AppendVelocity(rows: seq<State>, values: seq<real>, variances: seq<real>, t: Tuning, z: Measurement)
    returns (rowsOut: seq<State>, valuesOut: seq<real>, variancesOut: seq<real>)
    requires Agrees(rows, values, variances, t, z) && z.velocityKt.Some?
    requires VEAST !in rows && VNORTH !in rows
    ensures rowsOut == rows + [VEAST, VNORTH]
    ensures Agrees(rowsOut, valuesOut, variancesOut, t, z)
  {
    hide Agrees, Measured, ReportedValue, SpeedVar, PositionVar, AltitudeVar, VerticalRateVar;
    FieldByField(t, z);
    var (east, north) := z.velocityKt.value;
    AgreesWithOneMore(rows, values, variances, t, z, VEAST, east, SpeedVar(t));
    AgreesWithOneMore(rows + [VEAST], values + [east], variances + [SpeedVar(t)], t, z, VNORTH, north, SpeedVar(t));
    rowsOut, valuesOut := rows + [VEAST] + [VNORTH], values + [east] + [north];
    variancesOut := variances + [SpeedVar(t)] + [SpeedVar(t)];
  }

  lemma AgreesLists(rows: seq<State>, values: seq<real>, variances: seq<real>, t: Tuning, z: Measurement)
    requires Agrees(rows, values, variances, t, z) && EAST in rows && NORTH in rows
    requires z.altitudeFt.Some? ==> ALT in rows
    requires z.velocityKt.Some? ==> VEAST in rows && VNORTH in rows
    requires z.verticalRateFpm.Some? ==> VRATE in rows
    ensures Lists(rows, variances, VariancesOf(t, z)) && |values| == |rows|
    ensures forall a :: 0 <= a < |rows| ==> values[a] == ReportedValue(z, rows[a])
  {
  }

  method SelectionMatrix(rows: seq<State>) returns (h: Mat)
    ensures IsSelection(h, rows)
  {
    h := Build(|rows|, 6, (i, j) => 0.0);
    for i := 0 to |rows|
      invariant Shape(h, |rows|, 6)
      invariant forall a, k: State :: 0 <= a < |rows| ==> At(h, a, k) == if a < i && k == rows[a] then 1.0 else 0.0
    {
      h := SetAt(h, i, rows[i], 1.0);
    }
  }

  function Diagonal(variances: seq<real>): (r: Mat)
    ensures IsDiagonal(r, variances)
  {
    Build(|variances|, |variances|, (a, b) => if a == b && 0 <= a < |variances| then variances[a] else 0.0)
  }

  function Column(x: seq<real>): (m: Mat)
    ensures forall i :: 0 <= i < |x| ==> At(m, i, 0) == x[i]
    ensures Shape(m, |x|, 1)
  {
    Build(|x|, 1, (i, j) => if 0 <= i < |x| then x[i] else 0.0)
  }

  /** Matrix times vector. */
  function Apply(a: Mat, rows: nat, x: seq<real>): (y: seq<real>)
    ensures |y| == rows
  {
    seq(rows, i => Dot(a, i, Column(x), 0, |x|))
  }

  type Mean = x: seq<real> | |x| == 6 witness [0.0, 0.0, 0.0, 0.0, 0.0, 0.0]

  /** Constant-velocity propagation of the state. */
  function PredictedMean(x: Mean, dt: real, i: State): real {
    if IsPosition(i) then x[i] + RateGain(BlockIndex(i)) * dt * x[Partner(i)] else x[i]
  }

  /** How far the reported value of a state is from the predicted one; nothing if not measured. */
  function Surprise(t: Tuning, z: Measurement, x: Mean, i: State): real {
    if Measured(t, z, i).Some? then ReportedValue(z, i) - x[i] else 0.0
  }

  /** Each state moves by its gains times the surprises of its own pair only. */
  function CorrectedMean(t: Tuning, bs: Triple, z: Measurement, x: Mean, i: State): real
    requires AllGood(bs) && AllPositive(VariancesOf(t, z))
  {
    var vs := VariancesOf(t, z);
    x[i] + (GainEntry(bs, vs, i, i) * Surprise(t, z, x, i)
            + GainEntry(bs, vs, i, Partner(i)) * Surprise(t, z, x, Partner(i)))
  }

  lemma TransitionOfMean(f: Mat, x: Mean, dt: real, i: State)
    requires IsTransition(f, dt)
    ensures Apply(f, 6, x)[i] == PredictedMean(x, dt, i)
  {
    hide Dot, RateGain, BlockIndex;
    var c := Column(x);
    DotSparse(f, i, c, 0, 6, i, Partner(i));
    assert At(f, i, Partner(i)) == FEntry(dt, i, Partner(i));
  }

  lemma SelectedMean(h: Mat, rows: seq<State>, x: Mean, a: int)
    requires IsSelection(h, rows) && 0 <= a < |rows|
    ensures Apply(h, |rows|, x)[a] == x[rows[a]]
  {
    hide Dot;
    SelectRow(h, rows, Column(x), a, 0);
  }

  lemma SurpriseTerm(gain: Mat, rows: seq<State>, variances: seq<real>, t: Tuning, bs: Triple, z: Measurement, x: Mean,
                     innovation: seq<real>, i: State, k: State, term: real)
    requires AllGood(bs) && AllPositive(VariancesOf(t, z)) && Lists(rows, variances, VariancesOf(t, z))
    requires IsGain(gain, rows, bs, VariancesOf(t, z)) && |innovation| == |rows|
    requires forall a :: 0 <= a < |rows| ==> innovation[a] == ReportedValue(z, rows[a]) - x[rows[a]]
    requires term == GainEntry(bs, VariancesOf(t, z), i, k) * Surprise(t, z, x, k)
    ensures var a := Where(rows, k); term == if a >= 0 then At(gain, i, a) * At(Column(innovation), a, 0) else 0.0
  {
    hide GainEntry, ReportedValue;
  }

  lemma GainOffPair(gain: Mat, rows: seq<State>, bs: Triple, vs: Variances, i: State)
    requires AllGood(bs) && AllPositive(vs) && IsGain(gain, rows, bs, vs)
    requires forall a, b :: 0 <= a < b < |rows| ==> rows[a] != rows[b]
    ensures forall a :: 0 <= a < |rows| && a != Where(rows, i) && a != Where(rows, Partner(i)) ==> At(gain, i, a) == 0.0
  {
    hide GainsOf;
    forall a | 0 <= a < |rows| && a != Where(rows, i) && a != Where(rows, Partner(i)) ensures At(gain, i, a) == 0.0 {
      assert GainEntry(bs, vs, i, rows[a]) == 0.0;
    }
  }

  lemma RowsAreDistinct(rows: seq<State>, variances: seq<real>, vs: Variances)
    requires Lists(rows, variances, vs)
    ensures forall a, b :: 0 <= a < b < |rows| ==> rows[a] != rows[b]
  {
  }

  lemma CorrectionOfMean(gain: Mat, rows: seq<State>, variances: seq<real>, t: Tuning, bs: Triple, z: Measurement,
                         x: Mean,
                         innovation: seq<real>, i: State, s: real, u: real)
    requires AllGood(bs) && AllPositive(VariancesOf(t, z)) && Lists(rows, variances, VariancesOf(t, z))
    requires IsGain(gain, rows, bs, VariancesOf(t, z)) && |innovation| == |rows|
    requires forall a :: 0 <= a < |rows| ==> innovation[a] == ReportedValue(z, rows[a]) - x[rows[a]]
    requires s == GainEntry(bs, VariancesOf(t, z), i, i) * Surprise(t, z, x, i)
    requires u == GainEntry(bs, VariancesOf(t, z), i, Partner(i)) * Surprise(t, z, x, Partner(i))
    ensures Dot(gain, i, Column(innovation), 0, |rows|) == s + u
  {
    hide GainEntry, Dot, Surprise, ReportedValue, Measured, At, Partner, IsGain, VariancesOf, Lists, AllPositive,
      AllGood, Column;
    RowsAreDistinct(rows, variances, VariancesOf(t, z));
    GainOffPair(gain, rows, bs, VariancesOf(t, z), i);
    SurpriseTerm(gain, rows, variances, t, bs, z, x, innovation, i, i, s);
    SurpriseTerm(gain, rows, variances, t, bs, z, x, innovation, i, Partner(i), u);
    PairOfTerms(gain, rows, i, Column(innovation), s, u);
  }

  /** A gain row that vanishes off the pair of `i`, against a column. */
  lemma PairOfTerms(gain: Mat, rows: seq<State>, i: State, c: Mat, s: real, u: real)
    requires forall a :: 0 <= a < |rows| && a != Where(rows, i) && a != Where(rows, Partner(i)) ==>
      At(gain, i, a) == 0.0
    requires var a := Where(rows, i); s == if a >= 0 then At(gain, i, a) * At(c, a, 0) else 0.0
    requires var a := Where(rows, Partner(i)); u == if a >= 0 then At(gain, i, a) * At(c, a, 0) else 0.0
    ensures Dot(gain, i, c, 0, |rows|) == s + u
  {
    hide Dot, At;
    assert Where(rows, i) == Where(rows, Partner(i)) ==> Where(rows, i) == -1;
    MeasuredTerms(gain, i, c, 0, |rows|, Where(rows, i), Where(rows, Partner(i)), s, u);
  }
}
