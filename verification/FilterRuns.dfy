/** What the filter keeps over every run of coasting and corrections, with any fields present
    (kalman.py). */
module FilterRuns {
  import opened Prelude
  import opened Matrix
  import opened Blocks
  import opened Kalman
  import opened KalmanUpdate
  import opened KalmanFilter
  import opened TrackFilters
  import opened Propagation

  datatype Op = Coast(dt: real) | Correct(dt: real, z: Measurement)

  function Step(t: Tuning, s: Belief, op: Op, sqrt: real -> real): (r: Belief)
    requires t.Valid() && AllGood(s.blocks)
    ensures AllGood(r.blocks)
  {
    hide AllGood, Folded, Coasted;
    CoastingKeepsGood(t, s, op.dt);
    match op
    case Coast(dt) => Coasted(t, s, dt)
    case Correct(dt, z) =>
      FoldingKeepsGood(t, Coasted(t, s, dt), z, sqrt);
      Folded(t, Coasted(t, s, dt), z, sqrt)
  }

  function Run(t: Tuning, s: Belief, ops: seq<Op>, sqrt: real -> real): (r: Belief)
    requires t.Valid() && AllGood(s.blocks)
    ensures AllGood(r.blocks)
  {
    hide AllGood, Step;
    if ops == [] then s else Step(t, Run(t, s, ops[..|ops| - 1], sqrt), ops[|ops| - 1], sqrt)
  }

  // ----- Coasting alone -----

  predicate OnlyCoasts(ops: seq<Op>) {
    forall i :: 0 <= i < |ops| ==> ops[i].Coast?
  }

  /** The time a filter spends coasting; an interval that is not positive is no time. */
  function CoastingTime(ops: seq<Op>): real {
    if ops == [] then 0.0 else CoastingTime(ops[..|ops| - 1]) + Max(0.0, ops[|ops| - 1].dt)
  }

  /** However it is cut into intervals, coasting is dead reckoning over all of them: the position moves on at
      its own velocity, the altitude at its own rate, and no rate changes. */
  lemma {:induction false} CoastingIsDeadReckoning(t: Tuning, s: Belief, ops: seq<Op>, sqrt: real -> real)
    requires t.Valid() && AllGood(s.blocks) && OnlyCoasts(ops)
    ensures Moves(s.mean, Run(t, s, ops, sqrt).mean, CoastingTime(ops))
  {
    hide AllGood, Moves, Coasted, Propagated;
    if ops == [] {
      NoTimeMovesNothing(s.mean);
    } else {
      var (before, dt) := (ops[..|ops| - 1], ops[|ops| - 1].dt);
      CoastingIsDeadReckoning(t, s, before, sqrt);
      var r := Run(t, s, before, sqrt);
      CoastMoves(t, r, dt);
      assert Run(t, s, ops, sqrt) == Coasted(t, r, dt);
      MovesCompose(s.mean, r.mean, Coasted(t, r, dt).mean, CoastingTime(before), Max(0.0, dt));
    }
  }

  lemma CoastMoves(t: Tuning, s: Belief, dt: real)
    ensures Moves(s.mean, Coasted(t, s, dt).mean, Max(0.0, dt))
  {
    hide Moves, Coasted, Spreads;
    CoastingPropagates(t, s, dt);
    NoTimeMovesNothing(s.mean);
  }

  lemma NoTimeMovesNothing(x: Mean)
    ensures Moves(x, x, 0.0)
  {
  }

  ghost predicate Reachable(t: Tuning, s: Belief, sqrt: real -> real)
    requires t.Valid()
  {
    InitialIsGood(t);
    exists initial: Mean, ops: seq<Op> :: s == Run(t, Belief(initial, InitialBlocks(t), 0.0), ops, sqrt)
  }

  lemma ReachableIsGood(t: Tuning, s: Belief, sqrt: real -> real)
    requires t.Valid() && Reachable(t, s, sqrt)
    ensures AllGood(s.blocks)
  {
    hide AllGood, InitialBlocks, Run;
    InitialIsGood(t);
    var initial: Mean, ops :| s == Run(t, Belief(initial, InitialBlocks(t), 0.0), ops, sqrt);
  }

  /** A filter object is moved by predictions and corrections only, each of which is a step here, so what
      its constructor starts stays reachable. */
  lemma StepsStayReachable(t: Tuning, s: Belief, op: Op, sqrt: real -> real)
    requires t.Valid() && Reachable(t, s, sqrt)
    ensures AllGood(s.blocks) && Reachable(t, Step(t, s, op, sqrt), sqrt)
  {
    hide AllGood, InitialBlocks, Step;
    InitialIsGood(t);
    ReachableIsGood(t, s, sqrt);
    var initial: Mean, ops :| s == Run(t, Belief(initial, InitialBlocks(t), 0.0), ops, sqrt);
    assert (ops + [op])[..|ops|] == ops;
    assert Step(t, s, op, sqrt) == Run(t, Belief(initial, InitialBlocks(t), 0.0), ops + [op], sqrt);
  }

  // ----- Positive definiteness of the whole matrix -----

  /** `v` transposed times `p` times `v`. */
  function Form(p: Mat, v: Mean): real {
    var pv := Apply(p, 6, v);
    v[0] * pv[0] + v[1] * pv[1] + v[2] * pv[2] + v[3] * pv[3] + v[4] * pv[4] + v[5] * pv[5]
  }

  function BlockForm(b: Block, x: real, y: real): real {
    b.pos * x * x + 2.0 * b.cross * x * y + b.rate * y * y
  }

  lemma RowTimesVector(p: Mat, bs: Triple, v: Mean, i: State)
    requires Represents(p, bs)
    ensures Apply(p, 6, v)[i] == Entry(bs, i, i) * v[i] + Entry(bs, i, Partner(i)) * v[Partner(i)]
  {
    hide Entry, Dot;
    var c := Column(v);
    forall k: State | k != i && k != Partner(i) ensures At(p, i, k) == 0.0 { OffBlock(bs, i, k); }
    assert At(c, i, 0) == v[i] && At(c, Partner(i), 0) == v[Partner(i)];
    OwnBlockTerms(p, i, c, 0, Entry(bs, i, i) * v[i] + Entry(bs, i, Partner(i)) * v[Partner(i)]);
  }

  lemma PairForm(b: Block, x: real, y: real, px: real, py: real)
    requires px == b.pos * x + b.cross * y && py == b.rate * y + b.cross * x
    ensures x * px + y * py == BlockForm(b, x, y)
  {
    assert x * px == b.pos * x * x + b.cross * x * y;
    assert y * py == b.rate * y * y + b.cross * x * y;
  }

  lemma FormSplits(p: Mat, bs: Triple, v: Mean)
    requires Represents(p, bs)
    ensures Form(p, v) == BlockForm(bs[0], v[EAST], v[VEAST]) + BlockForm(bs[1], v[NORTH], v[VNORTH])
                          + BlockForm(bs[2], v[ALT], v[VRATE])
  {
    hide BlockForm, Apply, Represents;
    var pv := Apply(p, 6, v);
    RowTimesVector(p, bs, v, EAST);
    RowTimesVector(p, bs, v, VEAST);
    PairForm(bs[0], v[EAST], v[VEAST], pv[EAST], pv[VEAST]);
    RowTimesVector(p, bs, v, NORTH);
    RowTimesVector(p, bs, v, VNORTH);
    PairForm(bs[1], v[NORTH], v[VNORTH], pv[NORTH], pv[VNORTH]);
    RowTimesVector(p, bs, v, ALT);
    RowTimesVector(p, bs, v, VRATE);
    PairForm(bs[2], v[ALT], v[VRATE], pv[ALT], pv[VRATE]);
  }

  /** The matrix a filter object holds, which its constructor, predictions and corrections all keep
      `Valid`, is symmetric, zero outside the three blocks and positive definite, and no rate is negatively
      correlated with its position. */
  lemma ObjectCovariance(f: TrackFilter)
    requires f.Valid()
    ensures forall i: State, j: State :: At(f.p, i, j) == At(f.p, j, i)
    ensures forall i: State, j: State :: j != i && j != Partner(i) ==> At(f.p, i, j) == 0.0
    ensures forall i: State :: At(f.p, i, i) > 0.0 && At(f.p, i, Partner(i)) >= 0.0
    ensures forall v: Mean :: v != [0.0, 0.0, 0.0, 0.0, 0.0, 0.0] ==> Form(f.p, v) > 0.0
  {
    hide Form, BlocksOf;
    var bs := BlocksOf(f.p);
    forall i: State, j: State ensures At(f.p, i, j) == At(f.p, j, i) { EntrySymmetric(bs, i, j); }
    forall v: Mean | v != [0.0, 0.0, 0.0, 0.0, 0.0, 0.0] ensures Form(f.p, v) > 0.0 { DefiniteAt(f.p, bs, v); }
  }

  lemma DefiniteAt(p: Mat, bs: Triple, v: Mean)
    requires Represents(p, bs) && AllGood(bs) && v != [0.0, 0.0, 0.0, 0.0, 0.0, 0.0]
    ensures Form(p, v) > 0.0
  {
    hide Form, Represents;
    FormSplits(p, bs, v);
    BlockDefinite(bs[0], v[EAST], v[VEAST]);
    BlockDefinite(bs[1], v[NORTH], v[VNORTH]);
    BlockDefinite(bs[2], v[ALT], v[VRATE]);
    hide BlockForm, Good;
    assert exists i: State :: v[i] != 0.0;
  }

  lemma BlockDefinite(b: Block, x: real, y: real)
    requires Good(b)
    ensures BlockForm(b, x, y) >= 0.0
    ensures x != 0.0 || y != 0.0 ==> BlockForm(b, x, y) > 0.0
  {
    FormIsPositive(b, x, y, BlockForm(b, x, y));
  }

  // ----- Reported uncertainties -----

  const METRES_PER_NM := 1852.0

  /** The one-sigma horizontal uncertainty, over both axes, in metres. */
  function PositionUncertaintyM(bs: Triple, sqrt: real -> real): real {
    sqrt(Max(0.0, bs[0].pos + bs[1].pos)) * METRES_PER_NM
  }

  function VelocityUncertaintyKt(bs: Triple, sqrt: real -> real): real {
    sqrt(Max(0.0, 0.5 * (bs[0].rate + bs[1].rate)))
  }

  function AltitudeUncertaintyFt(bs: Triple, sqrt: real -> real): real {
    sqrt(Max(0.0, bs[2].pos))
  }

  function VerticalRateUncertaintyFpm(bs: Triple, sqrt: real -> real): real {
    sqrt(Max(0.0, bs[2].rate))
  }

  /** Coasting for any positive time makes every variance and every reported uncertainty strictly
      larger. */
  lemma CoastingRaises(t: Tuning, s: Belief, dt: real, sqrt: real -> real)
    requires t.Valid() && IsSqrt(sqrt) && AllGood(s.blocks) && dt > 0.0
    ensures var (a, b) := (s.blocks, Coasted(t, s, dt).blocks);
      && (forall i: State :: Variance(b, i) > Variance(a, i))
      && PositionUncertaintyM(b, sqrt) > PositionUncertaintyM(a, sqrt)
      && VelocityUncertaintyKt(b, sqrt) > VelocityUncertaintyKt(a, sqrt)
      && AltitudeUncertaintyFt(b, sqrt) > AltitudeUncertaintyFt(a, sqrt)
      && VerticalRateUncertaintyFpm(b, sqrt) > VerticalRateUncertaintyFpm(a, sqrt)
  {
    hide Coasted, IsSqrt;
    CoastingKeepsGood(t, s, dt);
    var (a, b) := (s.blocks, Coasted(t, s, dt).blocks);
    assert Variance(b, EAST) > Variance(a, EAST) && Variance(b, NORTH) > Variance(a, NORTH);
    assert Variance(b, VEAST) > Variance(a, VEAST) && Variance(b, VNORTH) > Variance(a, VNORTH);
    assert Variance(b, ALT) > Variance(a, ALT) && Variance(b, VRATE) > Variance(a, VRATE);
    SqrtOrder(sqrt, a[0].pos + a[1].pos, b[0].pos + b[1].pos);
    SqrtOrder(sqrt, 0.5 * (a[0].rate + a[1].rate), 0.5 * (b[0].rate + b[1].rate));
    SqrtOrder(sqrt, a[2].pos, b[2].pos);
    SqrtOrder(sqrt, a[2].rate, b[2].rate);
  }

  /** So it is from every reachable state, coasting again and again included. */
  lemma CoastingRaisesUncertainty(t: Tuning, s: Belief, dt: real, sqrt: real -> real)
    requires t.Valid() && IsSqrt(sqrt) && Reachable(t, s, sqrt) && dt > 0.0
    ensures var (a, b) := (s.blocks, Coasted(t, s, dt).blocks);
      && (forall i: State :: Variance(b, i) > Variance(a, i))
      && PositionUncertaintyM(b, sqrt) > PositionUncertaintyM(a, sqrt)
      && VelocityUncertaintyKt(b, sqrt) > VelocityUncertaintyKt(a, sqrt)
      && AltitudeUncertaintyFt(b, sqrt) > AltitudeUncertaintyFt(a, sqrt)
      && VerticalRateUncertaintyFpm(b, sqrt) > VerticalRateUncertaintyFpm(a, sqrt)
  {
    hide Reachable, Coasted, IsSqrt, AllGood;
    ReachableIsGood(t, s, sqrt);
    CoastingRaises(t, s, dt, sqrt);
  }

  /** A correction never raises a variance above what propagation left, lowers every measured one, and
      puts the reported uncertainty below that of the sensor over both axes, whatever came before. */
  lemma CorrectionBoundsUncertainty(t: Tuning, s: Belief, dt: real, z: Measurement, sqrt: real -> real, bound: real)
    requires t.Valid() && IsSqrt(sqrt) && Reachable(t, s, sqrt) && bound >= 0.0
    requires bound * bound == 2.0 * (t.positionNm * METRES_PER_NM) * (t.positionNm * METRES_PER_NM)
    ensures AllGood(s.blocks) && AllGood(Coasted(t, s, dt).blocks)
    ensures var (before, after) := (Coasted(t, s, dt).blocks, Step(t, s, Correct(dt, z), sqrt).blocks);
      && (forall i: State :: Variance(after, i) <= Variance(before, i))
      && (forall i: State :: Measured(t, z, i).Some? ==> Variance(after, i) < Variance(before, i))
      && PositionUncertaintyM(after, sqrt) < bound
  {
    hide Run, Reachable, Coasted, IsSqrt, Folded, Good, Measured;
    ReachableIsGood(t, s, sqrt);
    CoastingKeepsGood(t, s, dt);
    FoldingKeepsGood(t, Coasted(t, s, dt), z, sqrt);
    FoldingBeatsTheSensor(t, Coasted(t, s, dt), z, sqrt);
    var after := Step(t, s, Correct(dt, z), sqrt).blocks;
    assert after[0].pos == Variance(after, EAST) && after[1].pos == Variance(after, NORTH);
    BelowBound(sqrt, after[0].pos + after[1].pos, t.positionNm, bound);
  }

  lemma BelowBound(sqrt: real -> real, v: real, sigma: real, bound: real)
    requires IsSqrt(sqrt) && 0.0 <= v < 2.0 * (sigma * sigma) && bound >= 0.0
    requires bound * bound == 2.0 * (sigma * METRES_PER_NM) * (sigma * METRES_PER_NM)
    ensures sqrt(v) * METRES_PER_NM < bound
  {
    var root := sqrt(v);
    var u := root * METRES_PER_NM;
    assert root * root == v && root >= 0.0;
    assert u * u == v * (METRES_PER_NM * METRES_PER_NM) by {
      assert u * u == root * root * (METRES_PER_NM * METRES_PER_NM);
    }
    assert bound * bound == 2.0 * (sigma * sigma) * (METRES_PER_NM * METRES_PER_NM);
    SquareOrder(u, bound);
  }

  /** With the default tuning the bound is the square root of two times thirty metres. */
  lemma DefaultBound(s: Belief, dt: real, z: Measurement, sqrt: real -> real, root2: real)
    requires IsSqrt(sqrt) && DEFAULT_TUNING.Valid() && Reachable(DEFAULT_TUNING, s, sqrt)
    requires root2 >= 0.0 && root2 * root2 == 2.0
    ensures AllGood(s.blocks)
    ensures PositionUncertaintyM(Step(DEFAULT_TUNING, s, Correct(dt, z), sqrt).blocks, sqrt) < root2 * 30.0
  {
    hide Reachable, PositionUncertaintyM, Step;
    assert root2 * 30.0 * (root2 * 30.0) == root2 * root2 * 900.0;
    CorrectionBoundsUncertainty(DEFAULT_TUNING, s, dt, z, sqrt, root2 * 30.0);
  }
}
