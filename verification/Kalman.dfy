/** The six-state Kalman filter (kalman.py): its matrices as the program builds and multiplies them,
    and the three decoupled blocks they amount to.  The state is east, north, their velocities,
    altitude and vertical rate. */
module Kalman {
  import opened Prelude
  import opened Matrix
  import opened Blocks

  const EAST: nat := 0
  const NORTH: nat := 1
  const VEAST: nat := 2
  const VNORTH: nat := 3
  const ALT: nat := 4
  const VRATE: nat := 5

  type State = i: int | 0 <= i < 6

  datatype Tuning = Tuning(
    accelKtS: real,
    verticalFpmS: real,
    positionNm: real,
    altitudeFt: real,
    speedKt: real,
    initialPositionNm: real,
    initialVelocityKt: real,
    initialAltitudeFt: real,
    initialVerticalRateFpm: real)
  {
    predicate Valid() {
      && accelKtS > 0.0 && verticalFpmS > 0.0 && positionNm > 0.0 && altitudeFt > 0.0 && speedKt > 0.0
      && initialPositionNm > 0.0 && initialVelocityKt > 0.0 && initialAltitudeFt > 0.0 && initialVerticalRateFpm > 0.0
    }
  }

  const DEFAULT_TUNING := Tuning(3.0, 60.0, 30.0 / 1852.0, 25.0, 2.0, 1.0, 50.0, 200.0, 500.0)

  // ----- The block structure of the state -----

  /** A position-like state is paired with its rate. */
  predicate IsPosition(i: State) {
    i == EAST || i == NORTH || i == ALT
  }

  function Partner(i: State): (p: State)
    ensures p != i && (IsPosition(i) <==> !IsPosition(p)) && BlockIndex(p) == BlockIndex(i)
  {
    if i < 2 then i + 2 else if i < 4 then i - 2 else 9 - i
  }

  function BlockIndex(i: State): (k: int)
    ensures 0 <= k < 3
  {
    if i == EAST || i == VEAST then 0 else if i == NORTH || i == VNORTH then 1 else 2
  }

  lemma PartnerIsInvolution(i: State, j: State)
    ensures Partner(Partner(i)) == i
    ensures j == Partner(i) <==> i == Partner(j)
    ensures BlockIndex(i) == BlockIndex(j) <==> j == i || j == Partner(i)
  {
  }

  /** How much one unit of rate moves the position-like state in a second. */
  function RateGain(k: int): real {
    if k < 2 then 1.0 / 3600.0 else 1.0 / 60.0
  }

  function AccelVar(t: Tuning, k: int): real {
    if k < 2 then t.accelKtS * t.accelKtS else t.verticalFpmS * t.verticalFpmS
  }

  type Triple = bs: seq<Block> | |bs| == 3 witness [Block(1.0, 0.0, 1.0), Block(1.0, 0.0, 1.0), Block(1.0, 0.0, 1.0)]

  function Variance(bs: Triple, i: State): real {
    if IsPosition(i) then bs[BlockIndex(i)].pos else bs[BlockIndex(i)].rate
  }

  /** The covariance matrix that three blocks stand for. */
  function Entry(bs: Triple, i: State, j: State): real {
    if j == i then Variance(bs, i) else if j == Partner(i) then bs[BlockIndex(i)].cross else 0.0
  }

  ghost predicate Represents(p: Mat, bs: Triple) {
    Shape(p, 6, 6) && forall i: State, j: State :: At(p, i, j) == Entry(bs, i, j)
  }

  // ----- Prediction -----

  function PredictBlock(t: Tuning, bs: Triple, dt: real, k: int): Block
    requires 0 <= k < 3
  {
    Predicted(bs[k], dt, RateGain(k), AccelVar(t, k))
  }

  function PredictBlocks(t: Tuning, bs: Triple, dt: real): Triple {
    [PredictBlock(t, bs, dt, 0), PredictBlock(t, bs, dt, 1), PredictBlock(t, bs, dt, 2)]
  }

  function FEntry(dt: real, i: State, j: State): real {
    if i == j then 1.0 else if IsPosition(i) && j == Partner(i) then RateGain(BlockIndex(i)) * dt else 0.0
  }

  ghost predicate IsTransition(f: Mat, dt: real) {
    Shape(f, 6, 6) && forall i: State, j: State :: At(f, i, j) == FEntry(dt, i, j)
  }

  method Transition(dt: real) returns (f: Mat)
    ensures IsTransition(f, dt)
    ensures At(f, EAST, VEAST) == dt / 3600.0 && At(f, NORTH, VNORTH) == dt / 3600.0 && At(f, ALT, VRATE) == dt / 60.0
  {
    f := Eye(6);
    f := SetAt(f, EAST, VEAST, 1.0 / 3600.0 * dt);
    f := SetAt(f, NORTH, VNORTH, 1.0 / 3600.0 * dt);
    f := SetAt(f, ALT, VRATE, dt / 60.0);
  }

  function NoiseBlocks(t: Tuning, dt: real): Triple {
    [Noise(dt, RateGain(0), AccelVar(t, 0)), Noise(dt, RateGain(1), AccelVar(t, 1)),
     Noise(dt, RateGain(2), AccelVar(t, 2))]
  }

  /** Noise entries once the first `k` blocks are filled in. */
  function FilledEntry(k: int, a: real, b: real, c: real, i: State, j: State): real {
    if BlockIndex(i) < k && j == i then (if IsPosition(i) then a else c)
    else if BlockIndex(i) < k && j == Partner(i) then b
    else 0.0
  }

  /** What an unknown constant acceleration of standard deviation `sigma` adds to a position, of which one
      unit of rate covers `h` in `dt` seconds, to its rate and between them. */
  predicate NoiseAt(q: Mat, pos: State, rate: State, h: real, dt: real, sigma: real)
    requires Shape(q, 6, 6)
  {
    && At(q, pos, pos) == (h * dt / 2.0) * (h * dt / 2.0) * sigma * sigma
    && At(q, pos, rate) == At(q, rate, pos) == (h * dt / 2.0) * dt * sigma * sigma
    && At(q, rate, rate) == dt * dt * sigma * sigma
  }

  lemma NoiseInUnits(q: Mat, pos: State, rate: State, h: real, dt: real, sigma: real, g: real)
    requires Shape(q, 6, 6) && g == h * dt / 2.0
    requires At(q, pos, pos) == g * g * (sigma * sigma) && At(q, rate, rate) == dt * dt * (sigma * sigma)
    requires At(q, pos, rate) == At(q, rate, pos) == g * dt * (sigma * sigma)
    ensures NoiseAt(q, pos, rate, h, dt, sigma)
  {
    var v := sigma * sigma;
    assert g * g * v == g * g * sigma * sigma && g * dt * v == g * dt * sigma * sigma
      && dt * dt * v == dt * dt * sigma * sigma;
  }

  method ProcessNoise(t: Tuning, dt: real) returns (q: Mat)
    ensures Represents(q, NoiseBlocks(t, dt))
    ensures NoiseAt(q, EAST, VEAST, dt / 3600.0, dt, t.accelKtS)
    ensures NoiseAt(q, NORTH, VNORTH, dt / 3600.0, dt, t.accelKtS)
    ensures NoiseAt(q, ALT, VRATE, dt / 60.0, dt, t.verticalFpmS)
  {
    hide NoiseAt;
    q := Build(6, 6, (i, j) => 0.0);
    var pairs := [(EAST, VEAST), (NORTH, VNORTH)];
    var varA := t.accelKtS * t.accelKtS;
    var gpp := 0.5 * dt * dt * (1.0 / 3600.0);
    var (a, b) := (gpp * gpp * varA, gpp * dt * varA);
    var c := dt * dt * varA;
    for k := 0 to 2
      invariant Shape(q, 6, 6)
      invariant forall i: State, j: State :: At(q, i, j) == FilledEntry(k, a, b, c, i, j)
    {
      var (pos, vel) := pairs[k];
      assert pos == k && vel == k + 2;
      q := SetAt(q, pos, pos, a);
      q := SetAt(q, pos, vel, b);
      q := SetAt(q, vel, pos, b);
      q := SetAt(q, vel, vel, c);
    }
    var varVa := t.verticalFpmS * t.verticalFpmS;
    var altGain := 0.5 * dt * dt / 60.0;
    assert altGain == 0.5 * dt * dt * (1.0 / 60.0);
    q := SetAt(q, ALT, ALT, altGain * altGain * varVa);
    q := SetAt(q, ALT, VRATE, altGain * dt * varVa);
    q := SetAt(q, VRATE, ALT, altGain * dt * varVa);
    q := SetAt(q, VRATE, VRATE, dt * dt * varVa);
    NoiseInUnits(q, EAST, VEAST, dt / 3600.0, dt, t.accelKtS, gpp);
    NoiseInUnits(q, NORTH, VNORTH, dt / 3600.0, dt, t.accelKtS, gpp);
    NoiseInUnits(q, ALT, VRATE, dt / 60.0, dt, t.verticalFpmS, altGain);
    assert NoiseBlocks(t, dt)[0] == Block(a, b, c) == NoiseBlocks(t, dt)[1];
    assert NoiseBlocks(t, dt)[2] == Block(altGain * altGain * varVa, altGain * dt * varVa, dt * dt * varVa);
    hide Noise;
  }

  function PredictedCovariance(f: Mat, p: Mat, q: Mat): Mat {
    Add(Mul(Mul(f, p, 6, 6, 6), Transpose(f, 6, 6), 6, 6, 6), q, 6, 6)
  }

  lemma FTimesP(f: Mat, p: Mat, bs: Triple, dt: real, i: State, j: State)
    requires IsTransition(f, dt) && Represents(p, bs)
    ensures At(Mul(f, p, 6, 6, 6), i, j) == ShearRow(bs, dt, i, j)
  {
    hide Entry, RateGain, Dot;
    assert Only(f, i, p, j, 6, i, Partner(i)) by {
      forall k: State | k != i && k != Partner(i) ensures At(f, i, k) == 0.0 {}
    }
    DotSparse(f, i, p, j, 6, i, Partner(i));
    assert At(f, i, i) == 1.0;
    assert At(f, i, Partner(i)) == if IsPosition(i) then RateGain(BlockIndex(i)) * dt else 0.0;
  }

  /** Predicting the matrix is predicting the blocks. */
  lemma PredictionDecouples(t: Tuning, f: Mat, p: Mat, q: Mat, bs: Triple, dt: real)
    requires IsTransition(f, dt) && Represents(p, bs) && Represents(q, NoiseBlocks(t, dt))
    ensures Represents(PredictedCovariance(f, p, q), PredictBlocks(t, bs, dt))
  {
    forall i: State, j: State
      ensures At(PredictedCovariance(f, p, q), i, j) == Entry(PredictBlocks(t, bs, dt), i, j)
    {
      PredictedEntry(t, f, p, q, bs, dt, i, j);
    }
  }

  lemma FTimesPRow(f: Mat, p: Mat, bs: Triple, dt: real, i: State)
    requires IsTransition(f, dt) && Represents(p, bs)
    ensures forall k: State :: k != i && k != Partner(i) ==> At(Mul(f, p, 6, 6, 6), i, k) == 0.0
  {
    hide ShearRow, Dot;
    forall k: State | k != i && k != Partner(i) ensures At(Mul(f, p, 6, 6, 6), i, k) == 0.0 {
      FTimesP(f, p, bs, dt, i, k);
      OffBlock(bs, i, k);
    }
  }

  /** A row that vanishes outside its own block, times any column. */
  lemma OwnBlockTerms(a: Mat, i: State, b: Mat, j: State, product: real)
    requires forall k: State :: k != i && k != Partner(i) ==> At(a, i, k) == 0.0
    requires product == At(a, i, i) * At(b, i, j) + At(a, i, Partner(i)) * At(b, Partner(i), j)
    ensures Dot(a, i, b, j, 6) == product
  {
    hide At, Partner, Dot;
    DotSparse(a, i, b, j, 6, i, Partner(i));
  }

  /** Row `i` of `F P F^T` against column `j`: at most the two terms of the row's own block. */
  lemma DoubleProduct(f: Mat, p: Mat, bs: Triple, dt: real, i: State, j: State, product: real)
    requires IsTransition(f, dt) && Represents(p, bs)
    requires product
          == ShearRow(bs, dt, i, i) * FEntry(dt, j, i) + ShearRow(bs, dt, i, Partner(i)) * FEntry(dt, j, Partner(i))
    ensures At(Mul(Mul(f, p, 6, 6, 6), Transpose(f, 6, 6), 6, 6, 6), i, j) == product
  {
    var fp, ft := Mul(f, p, 6, 6, 6), Transpose(f, 6, 6);
    hide FEntry, ShearRow, Dot;
    FTimesPRow(f, p, bs, dt, i);
    FTimesP(f, p, bs, dt, i, i);
    FTimesP(f, p, bs, dt, i, Partner(i));
    assert At(ft, i, j) == FEntry(dt, j, i) && At(ft, Partner(i), j) == FEntry(dt, j, Partner(i));
    OwnBlockTerms(fp, i, ft, j, product);
  }

  lemma PredictedEntry(t: Tuning, f: Mat, p: Mat, q: Mat, bs: Triple, dt: real, i: State, j: State)
    requires IsTransition(f, dt) && Represents(p, bs) && Represents(q, NoiseBlocks(t, dt))
    ensures At(PredictedCovariance(f, p, q), i, j) == Entry(PredictBlocks(t, bs, dt), i, j)
  {
    hide Entry, FEntry, ShearRow, Predicted, PredictBlocks, NoiseBlocks, IsTransition, Dot;
    var (own, other) := (ShearRow(bs, dt, i, i), ShearRow(bs, dt, i, Partner(i)));
    DoubleProduct(f, p, bs, dt, i, j, own * FEntry(dt, j, i) + other * FEntry(dt, j, Partner(i)));
    PredictedEntryValue(t, bs, dt, i, j, own, other);
  }

  lemma OffBlock(bs: Triple, i: State, k: State)
    requires k != i && k != Partner(i)
    ensures Entry(bs, i, k) == 0.0 && Entry(bs, Partner(i), k) == 0.0
    ensures forall dt :: ShearRow(bs, dt, i, k) == 0.0
  {
    PartnerIsInvolution(i, k);
    PartnerIsInvolution(Partner(i), k);
  }

  /** The value of the double product at one entry, from the row of `F P` it needs. */
  lemma PredictedEntryValue(t: Tuning, bs: Triple, dt: real, i: State, j: State, own: real, other: real)
    requires own == ShearRow(bs, dt, i, i) && other == ShearRow(bs, dt, i, Partner(i))
    ensures own * FEntry(dt, j, i) + other * FEntry(dt, j, Partner(i)) + Entry(NoiseBlocks(t, dt), i, j)
         == Entry(PredictBlocks(t, bs, dt), i, j)
  {
    PartnerIsInvolution(i, j);
    var k := BlockIndex(i);
    var shift := RateGain(k) * dt;
    var s := Sheared(bs[k], shift);
    var n := Noise(dt, RateGain(k), AccelVar(t, k));
    assert NoiseBlocks(t, dt)[k] == n && PredictBlocks(t, bs, dt)[k] == Plus(s, n);
    ShearedEntry(bs, dt, i, j, own, other);
    hide Noise, RateGain, AccelVar, NoiseBlocks, PredictBlocks, FEntry, Sheared, ShearRow;
  }

  /** Row `i` of the block transition times the covariance. */
  function ShearRow(bs: Triple, dt: real, i: State, j: State): real {
    Entry(bs, i, j) + (if IsPosition(i) then RateGain(BlockIndex(i)) * dt * Entry(bs, Partner(i), j) else 0.0)
  }

  lemma ShearedEntry(bs: Triple, dt: real, i: State, j: State, own: real, other: real)
    requires own == ShearRow(bs, dt, i, i) && other == ShearRow(bs, dt, i, Partner(i))
    ensures var s := Sheared(bs[BlockIndex(i)], RateGain(BlockIndex(i)) * dt);
      own * FEntry(dt, j, i) + other * FEntry(dt, j, Partner(i))
      == if j == i then (if IsPosition(i) then s.pos else s.rate) else if j == Partner(i) then s.cross else 0.0
  {
    hide FEntry, ShearRow, RateGain, Entry, Partner;
    ShearRowIs(bs, dt, i);
    TransitionColumn(dt, i, j);
    PartnerIsInvolution(i, j);
  }

  lemma ShearRowIs(bs: Triple, dt: real, i: State)
    ensures var (b, shift) := (bs[BlockIndex(i)], RateGain(BlockIndex(i)) * dt);
      if IsPosition(i)
      then ShearRow(bs, dt, i, i) == b.pos + shift * b.cross
        && ShearRow(bs, dt, i, Partner(i)) == b.cross + shift * b.rate
      else ShearRow(bs, dt, i, i) == b.rate && ShearRow(bs, dt, i, Partner(i)) == b.cross
  {
    hide RateGain;
    PartnerIsInvolution(i, i);
  }

  lemma TransitionColumn(dt: real, i: State, j: State)
    ensures var shift := RateGain(BlockIndex(i)) * dt;
      if IsPosition(i)
      then FEntry(dt, j, i) == (if j == i then 1.0 else 0.0)
           && FEntry(dt, j, Partner(i)) == (if j == i then shift else if j == Partner(i) then 1.0 else 0.0)
      else FEntry(dt, j, i) == (if j == i then 1.0 else if j == Partner(i) then shift else 0.0)
           && FEntry(dt, j, Partner(i)) == (if j == Partner(i) then 1.0 else 0.0)
  {
    hide RateGain;
    PartnerIsInvolution(i, j);
  }

  // ----- Without the cross-term invariant -----

  /** Prediction need not raise uncertainty from an arbitrary covariance: with altitude and vertical rate
      negatively correlated, one second of coasting at the default tuning lowers the altitude variance. */
  lemma NegativeCrossTermCanShrink()
    ensures var b := Block(10000.0, -9000.0, 10000.0);
      && b.pos > 0.0 && b.cross * b.cross < b.pos * b.rate
      && PredictBlock(DEFAULT_TUNING, [b, b, b], 1.0, 2).pos < b.pos
  {
  }
}
