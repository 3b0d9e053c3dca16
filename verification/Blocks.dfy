/** One (position, rate) block of the filter covariance: how prediction and correction change it
    (kalman.py). */
module Blocks {
  import opened Prelude

  /** A symmetric 2x2 covariance: variance of the position-like state, cross term, variance of the
      rate-like state. */
  datatype Block = Block(pos: real, cross: real, rate: real)

  /** Positive definite, with position and rate never negatively correlated. */
  predicate Good(b: Block) {
    b.pos > 0.0 && b.rate > 0.0 && b.cross >= 0.0 && b.cross * b.cross < b.pos * b.rate
  }

  // ----- Prediction -----

  /** Covariance added by an unknown constant acceleration over `dt`: `gain` converts a rate into a
      change of position per second. */
  function Noise(dt: real, gain: real, accelVar: real): Block {
    var g := 0.5 * dt * dt * gain;
    Block(g * g * accelVar, g * dt * accelVar, dt * dt * accelVar)
  }

  /** Shearing by `shift`, the distance one unit of rate covers. */
  function Sheared(b: Block, shift: real): Block {
    Block(b.pos + shift * b.cross + (b.cross + shift * b.rate) * shift, b.cross + shift * b.rate, b.rate)
  }

  function Plus(a: Block, b: Block): Block {
    Block(a.pos + b.pos, a.cross + b.cross, a.rate + b.rate)
  }

  function Predicted(b: Block, dt: real, gain: real, accelVar: real): Block {
    Plus(Sheared(b, gain * dt), Noise(dt, gain, accelVar))
  }

  /** The quadratic form of a positive definite block; `f` is its value. */
  lemma FormIsPositive(b: Block, x: real, y: real, f: real)
    requires b.pos > 0.0 && b.cross * b.cross < b.pos * b.rate
    requires f == b.pos * x * x + 2.0 * b.cross * x * y + b.rate * y * y
    ensures f >= 0.0
    ensures x != 0.0 || y != 0.0 ==> f > 0.0
  {
    var u := b.pos * x + b.cross * y;
    var det := b.pos * b.rate - b.cross * b.cross;
    var uu, yy :| uu == u * u && yy == y * y;
    SquareValue(u, uu);
    SquareValue(y, yy);
    CompletedForm(b, x, y, f, uu, yy);
    ProductIsNonNegative(det, yy);
    if y != 0.0 {
      ProductValue(det, yy, det * yy);
    } else if x > 0.0 {
      ProductValue(b.pos, x, u);
    } else if x < 0.0 {
      ProductValue(b.pos, -x, -u);
    }
    SignOfFactor(b.pos, f, uu + det * yy);
  }

  lemma CompletedForm(b: Block, x: real, y: real, f: real, uu: real, yy: real)
    requires f == b.pos * x * x + 2.0 * b.cross * x * y + b.rate * y * y
    requires uu == (b.pos * x + b.cross * y) * (b.pos * x + b.cross * y) && yy == y * y
    ensures b.pos * f == uu + (b.pos * b.rate - b.cross * b.cross) * yy
  {
    var (p, q) := (b.pos * x, b.cross * y);
    assert uu == p * p + 2.0 * p * q + q * q;
    assert p * p == b.pos * (b.pos * x * x);
    assert p * q == b.pos * (b.cross * x * y);
    assert q * q == b.cross * b.cross * yy;
    assert b.pos * (b.rate * y * y) == b.pos * b.rate * yy;
    assert b.pos * f == b.pos * (b.pos * x * x) + 2.0 * (b.pos * (b.cross * x * y)) + b.pos * (b.rate * y * y);
  }

  lemma ShearKeepsDeterminant(b: Block, shift: real)
    ensures var s := Sheared(b, shift);
      s.pos * s.rate - s.cross * s.cross == b.pos * b.rate - b.cross * b.cross
  {
    var s := Sheared(b, shift);
    var c := b.cross + shift * b.rate;
    assert s.pos * s.rate == b.pos * b.rate + shift * b.cross * b.rate + c * (shift * b.rate);
    assert c * c == c * b.cross + c * (shift * b.rate);
    assert c * b.cross == b.cross * b.cross + shift * b.rate * b.cross;
  }

  lemma ShearKeepsGood(b: Block, shift: real)
    requires Good(b) && shift > 0.0
    ensures Good(Sheared(b, shift))
    ensures Sheared(b, shift).pos > b.pos && Sheared(b, shift).rate == b.rate
  {
    hide Sheared;
    ShearGrows(b, shift);
    ShearKeepsDeterminant(b, shift);
    var s := Sheared(b, shift);
    DefiniteByDifference(b.pos * b.rate, b.cross * b.cross, s.pos * s.rate, s.cross * s.cross);
  }

  lemma ShearGrows(b: Block, shift: real)
    requires b.rate > 0.0 && b.cross >= 0.0 && shift > 0.0
    ensures var s := Sheared(b, shift); s.pos > b.pos && s.cross >= 0.0 && s.rate == b.rate
  {
    var cross := b.cross + shift * b.rate;
    ProductIsNonNegative(shift, b.cross);
    ProductIsPositive(shift, b.rate);
    ProductIsPositive(cross, shift);
    assert Sheared(b, shift).pos == b.pos + shift * b.cross + cross * shift;
  }

  lemma DefiniteByDifference(before: real, beforeSq: real, after: real, afterSq: real)
    requires beforeSq < before && after - afterSq == before - beforeSq
    ensures afterSq < after
  {
  }

  /** Adding `v` times the outer product of `(g, d)` with itself keeps a block positive definite. */
  lemma RankOneKeepsDefinite(b: Block, g: real, d: real, v: real)
    requires Good(b) && v >= 0.0
    ensures var s := Plus(b, Block(g * g * v, g * d * v, d * d * v));
      s.cross * s.cross < s.pos * s.rate
  {
    var s := Plus(b, Block(g * g * v, g * d * v, d * d * v));
    var f :| f == b.pos * d * d + 2.0 * b.cross * d * (-g) + b.rate * (-g) * (-g);
    FormIsPositive(b, d, -g, f);
    ProductIsNonNegative(v, f);
    RankOneDeterminant(b, g, d, v, f);
  }

  lemma RankOneDeterminant(b: Block, g: real, d: real, v: real, f: real)
    requires f == b.pos * d * d + 2.0 * b.cross * d * (-g) + b.rate * (-g) * (-g)
    ensures (b.pos + g * g * v) * (b.rate + d * d * v) - (b.cross + g * d * v) * (b.cross + g * d * v)
         == b.pos * b.rate - b.cross * b.cross + v * f
  {
    var (p, q, w) := (g * g * v, d * d * v, g * d * v);
    assert p * q == w * w by {
      assert p * q == g * g * v * (d * d * v);
      assert w * w == g * d * v * (g * d * v);
    }
    assert (b.pos + p) * (b.rate + q) == b.pos * b.rate + b.pos * q + p * b.rate + p * q;
    assert (b.cross + w) * (b.cross + w) == b.cross * b.cross + 2.0 * b.cross * w + w * w;
    assert v * f == b.pos * q - 2.0 * b.cross * w + p * b.rate;
  }

  /** Predicting forward keeps the invariant and makes both variances grow strictly. */
  lemma PredictionGrows(b: Block, dt: real, gain: real, accelVar: real)
    requires Good(b) && dt > 0.0 && gain > 0.0 && accelVar > 0.0
    ensures Good(Predicted(b, dt, gain, accelVar))
    ensures Predicted(b, dt, gain, accelVar).pos > b.pos
    ensures Predicted(b, dt, gain, accelVar).rate > b.rate
  {
    var s := Sheared(b, gain * dt);
    var g := 0.5 * dt * dt * gain;
    ProductIsPositive(gain, dt);
    ShearKeepsGood(b, gain * dt);
    NoiseIsPositive(dt, gain, accelVar);
    RankOneKeepsDefinite(s, g, dt, accelVar);
    hide Sheared;
  }

  lemma NoiseIsPositive(dt: real, gain: real, accelVar: real)
    requires dt > 0.0 && gain > 0.0 && accelVar > 0.0
    ensures var n := Noise(dt, gain, accelVar); n.pos > 0.0 && n.cross > 0.0 && n.rate > 0.0
  {
    var g := 0.5 * dt * dt * gain;
    var n := Noise(dt, gain, accelVar);
    ProductValue(dt, dt, dt * dt);
    ProductValue(0.5 * dt * dt, gain, g);
    ProductValue(g, g, g * g);
    ProductValue(g, dt, g * dt);
    ProductValue(g * g, accelVar, n.pos);
    ProductValue(g * dt, accelVar, n.cross);
    ProductValue(dt * dt, accelVar, n.rate);
  }

  // ----- Correction -----

  /** Kalman gains of one block: `pr` is the gain of the position from a rate measurement. */
  datatype Gains = Gains(pp: real, pr: real, rp: real, rr: real)

  predicate Positive(v: Option<real>) {
    v.Some? ==> v.value > 0.0
  }

  /** Determinant of the innovation covariance when both states of the block are measured: `p`, `c`,
      `r` are the block's entries, `vp` and `vr` the measurement variances. */
  function Det(p: real, c: real, r: real, vp: real, vr: real): real {
    (p + vp) * (r + vr) - c * c
  }

  lemma DetIsPositive(p: real, c: real, r: real, vp: real, vr: real)
    requires p > 0.0 && r > 0.0 && c * c < p * r && vp > 0.0 && vr > 0.0
    ensures Det(p, c, r, vp, vr) > 0.0
    ensures p * (r + vr) - c * c > 0.0
  {
    ProductIsPositive(p, vr);
    ProductIsPositive(vp, r);
    ProductIsPositive(vp, vr);
    assert (p + vp) * (r + vr) == p * r + p * vr + vp * r + vp * vr;
  }

  /** With both measured: the gain of a state from its own measurement, and from its partner's. */
  function OwnGain(p: real, c: real, r: real, vp: real, vr: real): real
    requires Det(p, c, r, vp, vr) != 0.0
  {
    (p * (r + vr) - c * c) / Det(p, c, r, vp, vr)
  }

  function PartnerGain(p: real, c: real, r: real, vp: real, vr: real): real
    requires Det(p, c, r, vp, vr) != 0.0
  {
    c * vp / Det(p, c, r, vp, vr)
  }

  /** The gains for the measurements present. */
  function GainsFor(b: Block, vp: Option<real>, vr: Option<real>): Gains
    requires Good(b) && Positive(vp) && Positive(vr)
  {
    if vp.None? && vr.None? then Gains(0.0, 0.0, 0.0, 0.0)
    else if vr.None? then Gains(b.pos / (b.pos + vp.value), 0.0, b.cross / (b.pos + vp.value), 0.0)
    else if vp.None? then Gains(0.0, b.cross / (b.rate + vr.value), 0.0, b.rate / (b.rate + vr.value))
    else
      DetIsPositive(b.pos, b.cross, b.rate, vp.value, vr.value);
      DetIsPositive(b.rate, b.cross, b.pos, vr.value, vp.value);
      Gains(OwnGain(b.pos, b.cross, b.rate, vp.value, vr.value),
            PartnerGain(b.pos, b.cross, b.rate, vp.value, vr.value),
            PartnerGain(b.rate, b.cross, b.pos, vr.value, vp.value),
            OwnGain(b.rate, b.cross, b.pos, vr.value, vp.value))
  }

  /** The normal equations: gain times innovation covariance is the state-measurement covariance. */
  ghost predicate SolvesNormal(b: Block, vp: Option<real>, vr: Option<real>, g: Gains) {
    && (vp.Some? ==> g.pp * (b.pos + vp.value) + g.pr * b.cross == b.pos)
    && (vp.Some? ==> g.rp * (b.pos + vp.value) + g.rr * b.cross == b.cross)
    && (vr.Some? ==> g.pp * b.cross + g.pr * (b.rate + vr.value) == b.cross)
    && (vr.Some? ==> g.rp * b.cross + g.rr * (b.rate + vr.value) == b.rate)
    && (vp.None? ==> g.pp == 0.0 && g.rp == 0.0)
    && (vr.None? ==> g.pr == 0.0 && g.rr == 0.0)
  }

  /** Solving `x*a + y*b` through a common denominator. */
  lemma OverDenominator(n: real, k: real, a: real, b: real, d: real, x: real)
    requires d != 0.0 && n * a + k * b == x * d
    ensures (n / d) * a + (k / d) * b == x
  {
    var (p, q) := (n / d, k / d);
    assert p * d == n && q * d == k;
    assert (p * a + q * b) * d == p * d * a + q * d * b;
    assert (p * a + q * b - x) * d == 0.0;
    if p * a + q * b != x {
      assert (p * a + q * b - x) != 0.0;
    }
  }

  /** One row of gains solves its two normal equations; the other row is the same with the roles of
      position and rate exchanged. */
  lemma RowSolves(p: real, c: real, r: real, vp: real, vr: real)
    requires Det(p, c, r, vp, vr) > 0.0
    ensures OwnGain(p, c, r, vp, vr) * (p + vp) + PartnerGain(p, c, r, vp, vr) * c == p
    ensures OwnGain(p, c, r, vp, vr) * c + PartnerGain(p, c, r, vp, vr) * (r + vr) == c
  {
    var d := Det(p, c, r, vp, vr);
    var n, k := p * (r + vr) - c * c, c * vp;
    assert d == p * r + p * vr + vp * r + vp * vr - c * c;
    assert n * (p + vp) + k * c == p * d by { NormalOwn(p, c, r, vp, vr, d); }
    assert n * c + k * (r + vr) == c * d by { NormalCross(p, c, r, vp, vr, d); }
    OverDenominator(n, k, p + vp, c, d, p);
    OverDenominator(n, k, c, r + vr, d, c);
  }

  lemma GainsSolve(b: Block, vp: Option<real>, vr: Option<real>)
    requires Good(b) && Positive(vp) && Positive(vr)
    ensures SolvesNormal(b, vp, vr, GainsFor(b, vp, vr))
  {
    if vp.Some? && vr.Some? {
      hide SolvesNormal, GainsFor, Good;
      PairGainsSolve(b, vp.value, vr.value);
    } else if vp.Some? {
      hide SolvesNormal, GainsFor, Good;
      PositionGainsSolve(b, vp.value);
    } else if vr.Some? {
      hide SolvesNormal, GainsFor, Good;
      RateGainsSolve(b, vr.value);
    }
  }

  lemma PositionGainsSolve(b: Block, v: real)
    requires Good(b) && v > 0.0
    ensures SolvesNormal(b, Some(v), None, GainsFor(b, Some(v), None))
  {
    GainSolves(b.pos, v, b.pos);
    GainSolves(b.cross, v, b.pos);
  }

  lemma RateGainsSolve(b: Block, v: real)
    requires Good(b) && v > 0.0
    ensures SolvesNormal(b, None, Some(v), GainsFor(b, None, Some(v)))
  {
    GainSolves(b.cross, v, b.rate);
    GainSolves(b.rate, v, b.rate);
  }

  /** One measurement alone. */
  lemma GainSolves(x: real, v: real, p: real)
    requires p > 0.0 && v > 0.0
    ensures x / (p + v) * (p + v) == x
  {
  }

  lemma PairGainsSolve(b: Block, vp: real, vr: real)
    requires Good(b) && vp > 0.0 && vr > 0.0
    ensures SolvesNormal(b, Some(vp), Some(vr), GainsFor(b, Some(vp), Some(vr)))
  {
    hide Det, OwnGain, PartnerGain;
    DetIsPositive(b.pos, b.cross, b.rate, vp, vr);
    DetIsPositive(b.rate, b.cross, b.pos, vr, vp);
    RowSolves(b.pos, b.cross, b.rate, vp, vr);
    RowSolves(b.rate, b.cross, b.pos, vr, vp);
  }

  lemma NormalOwn(p: real, c: real, r: real, vp: real, vr: real, d: real)
    requires d == p * r + p * vr + vp * r + vp * vr - c * c
    ensures (p * (r + vr) - c * c) * (p + vp) + c * vp * c == p * d
  {
    var (n, cc) := (p * (r + vr), c * c);
    assert (n - cc) * (p + vp) == n * p + n * vp - cc * p - cc * vp;
    assert n * p == p * (p * r) + p * (p * vr);
    assert n * vp == p * (vp * r) + p * (vp * vr);
    assert p * d == p * (p * r) + p * (p * vr) + p * (vp * r) + p * (vp * vr) - p * cc;
    assert c * vp * c == cc * vp;
  }

  lemma NormalCross(p: real, c: real, r: real, vp: real, vr: real, d: real)
    requires d == p * r + p * vr + vp * r + vp * vr - c * c
    ensures (p * (r + vr) - c * c) * c + c * vp * (r + vr) == c * d
  {
    var cc := c * c;
    assert (p * (r + vr) - cc) * c == c * (p * r) + c * (p * vr) - c * cc;
    assert c * vp * (r + vr) == c * (vp * r) + c * (vp * vr);
    assert c * d == c * (p * r) + c * (p * vr) + c * (vp * r) + c * (vp * vr) - c * cc;
  }

  /** What correction leaves of the block: `(I - KH)P`. */
  function Corrected(b: Block, g: Gains): Block {
    Block(b.pos - g.pp * b.pos - g.pr * b.cross,
          b.cross - g.pp * b.cross - g.pr * b.rate,
          b.rate - g.rp * b.cross - g.rr * b.rate)
  }

  function ValueOr0(v: Option<real>): real {
    if v.Some? then v.value else 0.0
  }

  /** One entry of the Joseph form `(I - KH) P (I - KH)^T + K R K^T`: (k, l) and (m, n) are the gain
      rows of the two states, (x, y) the covariance row of the first, and `mine`/`other` the entries
      of the identity in the second state's row. */
  function Joseph(b: Block, vp: real, vr: real, k: real, l: real, m: real, n: real,
                  x: real, y: real, mine: real, other: real): real {
    (x - k * b.pos - l * b.cross) * (mine - m) + (y - k * b.cross - l * b.rate) * (other - n)
    + (k * vp * m + l * vr * n)
  }

  /** A row of gains (k, l) against a row (m, n) whose normal equations give (z, w): expanding the
      Joseph product and folding it back. */
  lemma JosephRow(p: real, c: real, r: real, vp: real, vr: real,
                  k: real, l: real, m: real, n: real, x: real, y: real, z: real, w: real)
    requires k * z == k * (m * (p + vp) + n * c) && l * w == l * (m * c + n * (r + vr))
    ensures (x - k * p - l * c) * (-m) + (y - k * c - l * r) * (-n) + (k * vp * m + l * vr * n)
         == k * z + l * w - m * x - n * y
  {
    assert k * (m * (p + vp) + n * c) == k * m * p + k * m * vp + k * n * c;
    assert l * (m * c + n * (r + vr)) == l * m * c + l * n * r + l * n * vr;
    assert (x - k * p - l * c) * (-m) == -(m * x) + k * m * p + l * m * c;
    assert (y - k * c - l * r) * (-n) == -(n * y) + k * n * c + l * n * r;
    assert k * vp * m == k * m * vp && l * vr * n == l * n * vr;
  }

  /** `K S K^T` is symmetric. */
  lemma GainTimesCovarianceIsSymmetric(p: real, c: real, r: real, vp: real, vr: real,
                                       k: real, l: real, m: real, n: real)
    requires k * c == k * (m * (p + vp) + n * c) && l * r == l * (m * c + n * (r + vr))
    requires m * p == m * (k * (p + vp) + l * c) && n * c == n * (k * c + l * (r + vr))
    ensures k * c + l * r == m * p + n * c
  {
    assert k * (m * (p + vp) + n * c) == k * m * (p + vp) + k * n * c;
    assert l * (m * c + n * (r + vr)) == l * m * c + l * n * (r + vr);
    assert m * (k * (p + vp) + l * c) == k * m * (p + vp) + l * m * c;
    assert n * (k * c + l * (r + vr)) == k * n * c + l * n * (r + vr);
  }

  /** The four entries of the Joseph form of a block. */
  function JosephPos(b: Block, g: Gains, vp: real, vr: real): real {
    Joseph(b, vp, vr, g.pp, g.pr, g.pp, g.pr, b.pos, b.cross, 1.0, 0.0)
  }

  function JosephPosRate(b: Block, g: Gains, vp: real, vr: real): real {
    Joseph(b, vp, vr, g.pp, g.pr, g.rp, g.rr, b.pos, b.cross, 0.0, 1.0)
  }

  function JosephRatePos(b: Block, g: Gains, vp: real, vr: real): real {
    Joseph(b, vp, vr, g.rp, g.rr, g.pp, g.pr, b.cross, b.rate, 1.0, 0.0)
  }

  function JosephRate(b: Block, g: Gains, vp: real, vr: real): real {
    Joseph(b, vp, vr, g.rp, g.rr, g.rp, g.rr, b.cross, b.rate, 0.0, 1.0)
  }

  /** An entry of the Joseph form through the normal equations of the second row. */
  lemma JosephEntry(b: Block, vp: real, vr: real, k: real, l: real, m: real, n: real,
                    x: real, y: real, mine: real, other: real, z: real, w: real)
    requires k * z == k * (m * (b.pos + vp) + n * b.cross) && l * w == l * (m * b.cross + n * (b.rate + vr))
    ensures Joseph(b, vp, vr, k, l, m, n, x, y, mine, other)
         == (x - k * b.pos - l * b.cross) * mine + (y - k * b.cross - l * b.rate) * other
             + (k * z + l * w - m * x - n * y)
  {
    JosephRow(b.pos, b.cross, b.rate, vp, vr, k, l, m, n, x, y, z, w);
    var (s, t) := (x - k * b.pos - l * b.cross, y - k * b.cross - l * b.rate);
    assert s * (mine - m) == s * mine + s * (-m);
    assert t * (other - n) == t * other + t * (-n);
  }

  /** An equation multiplied through, and one side of a normal equation: kept whole so that only the
      lemmas that expand them meet the products. */
  predicate Scaled(k: real, x: real, y: real) {
    k * x == k * y
  }

  function Mix(m: real, n: real, s: real, c: real): real {
    m * s + n * c
  }

  lemma PositionRowScaled(b: Block, vp: Option<real>, vr: Option<real>, g: Gains)
    requires SolvesNormal(b, vp, vr, g)
    ensures Scaled(g.pp, b.pos, Mix(g.pp, g.pr, b.pos + ValueOr0(vp), b.cross))
    ensures Scaled(g.pr, b.cross, Mix(g.pp, g.pr, b.cross, b.rate + ValueOr0(vr)))
  {
    hide SolvesNormal, ValueOr0;
    PositionRowProducts(b, vp, vr, g);
  }

  lemma RateRowScaled(b: Block, vp: Option<real>, vr: Option<real>, g: Gains)
    requires SolvesNormal(b, vp, vr, g)
    ensures Scaled(g.rp, b.cross, Mix(g.rp, g.rr, b.pos + ValueOr0(vp), b.cross))
    ensures Scaled(g.rr, b.rate, Mix(g.rp, g.rr, b.cross, b.rate + ValueOr0(vr)))
  {
    hide SolvesNormal, ValueOr0;
    RateRowProducts(b, vp, vr, g);
  }

  /** A diagonal entry, for the first state of the block and for the second. */
  lemma JosephFirst(b: Block, vp: real, vr: real, k: real, l: real, x: real, y: real)
    requires Scaled(k, x, Mix(k, l, b.pos + vp, b.cross)) && Scaled(l, y, Mix(k, l, b.cross, b.rate + vr))
    ensures Joseph(b, vp, vr, k, l, k, l, x, y, 1.0, 0.0) == x - k * b.pos - l * b.cross
  {
    hide Joseph;
    JosephEntry(b, vp, vr, k, l, k, l, x, y, 1.0, 0.0, x, y);
  }

  lemma JosephSecond(b: Block, vp: real, vr: real, k: real, l: real, x: real, y: real)
    requires Scaled(k, x, Mix(k, l, b.pos + vp, b.cross)) && Scaled(l, y, Mix(k, l, b.cross, b.rate + vr))
    ensures Joseph(b, vp, vr, k, l, k, l, x, y, 0.0, 1.0) == y - k * b.cross - l * b.rate
  {
    hide Joseph;
    JosephEntry(b, vp, vr, k, l, k, l, x, y, 0.0, 1.0, x, y);
  }

  /** The normal equations multiplied by the gains that use them; absent measurements have zero gain. */
  lemma NormalTimesGain(b: Block, vp: Option<real>, vr: Option<real>, g: Gains, k: real, l: real)
    requires SolvesNormal(b, vp, vr, g) && (vp.None? ==> k == 0.0) && (vr.None? ==> l == 0.0)
    ensures k * b.pos == k * (g.pp * (b.pos + ValueOr0(vp)) + g.pr * b.cross)
    ensures l * b.cross == l * (g.pp * b.cross + g.pr * (b.rate + ValueOr0(vr)))
    ensures k * b.cross == k * (g.rp * (b.pos + ValueOr0(vp)) + g.rr * b.cross)
    ensures l * b.rate == l * (g.rp * b.cross + g.rr * (b.rate + ValueOr0(vr)))
  {
  }

  /** The equations met by the products of the position's gains. */
  lemma PositionRowProducts(b: Block, vp: Option<real>, vr: Option<real>, g: Gains)
    requires SolvesNormal(b, vp, vr, g)
    ensures g.pp * b.pos == g.pp * (g.pp * (b.pos + ValueOr0(vp)) + g.pr * b.cross)
    ensures g.pr * b.cross == g.pr * (g.pp * b.cross + g.pr * (b.rate + ValueOr0(vr)))
    ensures g.pp * b.cross == g.pp * (g.rp * (b.pos + ValueOr0(vp)) + g.rr * b.cross)
    ensures g.pr * b.rate == g.pr * (g.rp * b.cross + g.rr * (b.rate + ValueOr0(vr)))
  {
    hide ValueOr0;
    NormalTimesGain(b, vp, vr, g, g.pp, g.pr);
  }

  /** The equations met by the products of the rate's gains. */
  lemma RateRowProducts(b: Block, vp: Option<real>, vr: Option<real>, g: Gains)
    requires SolvesNormal(b, vp, vr, g)
    ensures g.rp * b.pos == g.rp * (g.pp * (b.pos + ValueOr0(vp)) + g.pr * b.cross)
    ensures g.rr * b.cross == g.rr * (g.pp * b.cross + g.pr * (b.rate + ValueOr0(vr)))
    ensures g.rp * b.cross == g.rp * (g.rp * (b.pos + ValueOr0(vp)) + g.rr * b.cross)
    ensures g.rr * b.rate == g.rr * (g.rp * b.cross + g.rr * (b.rate + ValueOr0(vr)))
  {
    hide ValueOr0;
    NormalTimesGain(b, vp, vr, g, g.rp, g.rr);
  }

  lemma JosephPosIs(b: Block, vp: Option<real>, vr: Option<real>, g: Gains)
    requires SolvesNormal(b, vp, vr, g)
    ensures JosephPos(b, g, ValueOr0(vp), ValueOr0(vr)) == Corrected(b, g).pos
  {
    hide Joseph, ValueOr0, SolvesNormal, Scaled, Mix;
    var (v, w) := (ValueOr0(vp), ValueOr0(vr));
    PositionRowScaled(b, vp, vr, g);
    JosephFirst(b, v, w, g.pp, g.pr, b.pos, b.cross);
  }

  lemma JosephRateIs(b: Block, vp: Option<real>, vr: Option<real>, g: Gains)
    requires SolvesNormal(b, vp, vr, g)
    ensures JosephRate(b, g, ValueOr0(vp), ValueOr0(vr)) == Corrected(b, g).rate
  {
    hide Joseph, ValueOr0, SolvesNormal, Scaled, Mix;
    var (v, w) := (ValueOr0(vp), ValueOr0(vr));
    RateRowScaled(b, vp, vr, g);
    JosephSecond(b, v, w, g.rp, g.rr, b.cross, b.rate);
  }

  lemma JosephRatePosIs(b: Block, vp: Option<real>, vr: Option<real>, g: Gains)
    requires SolvesNormal(b, vp, vr, g)
    ensures JosephRatePos(b, g, ValueOr0(vp), ValueOr0(vr)) == b.cross - g.pp * b.cross - g.pr * b.rate
  {
    hide Joseph, ValueOr0, SolvesNormal;
    var (v, w) := (ValueOr0(vp), ValueOr0(vr));
    RateRowProducts(b, vp, vr, g);
    JosephEntry(b, v, w, g.rp, g.rr, g.pp, g.pr, b.cross, b.rate, 1.0, 0.0, b.pos, b.cross);
  }

  lemma JosephPosRateIs(b: Block, vp: Option<real>, vr: Option<real>, g: Gains)
    requires SolvesNormal(b, vp, vr, g)
    ensures JosephPosRate(b, g, ValueOr0(vp), ValueOr0(vr)) == b.cross - g.rp * b.pos - g.rr * b.cross
  {
    hide Joseph, ValueOr0, SolvesNormal;
    var (v, w) := (ValueOr0(vp), ValueOr0(vr));
    PositionRowProducts(b, vp, vr, g);
    JosephEntry(b, v, w, g.pp, g.pr, g.rp, g.rr, b.pos, b.cross, 0.0, 1.0, b.cross, b.rate);
  }

  lemma CrossTermsAgree(b: Block, vp: Option<real>, vr: Option<real>, g: Gains)
    requires SolvesNormal(b, vp, vr, g)
    ensures g.pp * b.cross + g.pr * b.rate == g.rp * b.pos + g.rr * b.cross
  {
    hide SolvesNormal, ValueOr0;
    PositionRowProducts(b, vp, vr, g);
    RateRowProducts(b, vp, vr, g);
    GainTimesCovarianceIsSymmetric(b.pos, b.cross, b.rate, ValueOr0(vp), ValueOr0(vr), g.pp, g.pr, g.rp, g.rr);
  }

  /** For the gain actually used, the Joseph form is `(I - KH)P`, and its off-diagonal entries agree. */
  lemma JosephIsCorrected(b: Block, vp: Option<real>, vr: Option<real>, g: Gains)
    requires SolvesNormal(b, vp, vr, g)
    ensures JosephPos(b, g, ValueOr0(vp), ValueOr0(vr)) == Corrected(b, g).pos
    ensures JosephPosRate(b, g, ValueOr0(vp), ValueOr0(vr)) == Corrected(b, g).cross
    ensures JosephRatePos(b, g, ValueOr0(vp), ValueOr0(vr)) == Corrected(b, g).cross
    ensures JosephRate(b, g, ValueOr0(vp), ValueOr0(vr)) == Corrected(b, g).rate
  {
    hide SolvesNormal, JosephPos, JosephPosRate, JosephRatePos, JosephRate, ValueOr0;
    JosephPosIs(b, vp, vr, g);
    JosephRateIs(b, vp, vr, g);
    JosephRatePosIs(b, vp, vr, g);
    JosephPosRateIs(b, vp, vr, g);
    CrossTermsAgree(b, vp, vr, g);
  }

  // ----- What a correction keeps -----

  function Correction(b: Block, vp: Option<real>, vr: Option<real>): Block
    requires Good(b) && Positive(vp) && Positive(vr)
  {
    Corrected(b, GainsFor(b, vp, vr))
  }

  lemma DividePositive(n: real, d: real)
    requires d > 0.0
    ensures n > 0.0 ==> n / d > 0.0
    ensures n >= 0.0 ==> n / d >= 0.0
  {
    SignOfFactor(d, n / d, n);
  }

  /** No gain is negative, and a measured state's own gain is positive. */
  lemma GainSigns(b: Block, vp: Option<real>, vr: Option<real>)
    requires Good(b) && Positive(vp) && Positive(vr)
    ensures var g := GainsFor(b, vp, vr);
      && g.pp >= 0.0 && g.pr >= 0.0 && g.rp >= 0.0 && g.rr >= 0.0
      && (vp.Some? ==> g.pp > 0.0) && (vr.Some? ==> g.rr > 0.0)
  {
    var (p, c, r) := (b.pos, b.cross, b.rate);
    if vp.Some? && vr.Some? {
      PairGainSigns(p, c, r, vp.value, vr.value);
      PairGainSigns(r, c, p, vr.value, vp.value);
      hide Det, OwnGain, PartnerGain;
    } else if vp.Some? {
      DividePositive(p, p + vp.value);
      DividePositive(c, p + vp.value);
    } else if vr.Some? {
      DividePositive(r, r + vr.value);
      DividePositive(c, r + vr.value);
    }
  }

  lemma PairGainSigns(p: real, c: real, r: real, vp: real, vr: real)
    requires p > 0.0 && r > 0.0 && c >= 0.0 && c * c < p * r && vp > 0.0 && vr > 0.0
    ensures Det(p, c, r, vp, vr) > 0.0 && OwnGain(p, c, r, vp, vr) > 0.0 && PartnerGain(p, c, r, vp, vr) >= 0.0
  {
    DetIsPositive(p, c, r, vp, vr);
    ProductIsNonNegative(c, vp);
    DividePositive(p * (r + vr) - c * c, Det(p, c, r, vp, vr));
    DividePositive(c * vp, Det(p, c, r, vp, vr));
  }

  /** A correction raises neither variance and strictly lowers those measured. */
  lemma CorrectionLowersVariance(b: Block, vp: Option<real>, vr: Option<real>)
    requires Good(b) && Positive(vp) && Positive(vr)
    ensures Correction(b, vp, vr).pos <= b.pos && Correction(b, vp, vr).rate <= b.rate
    ensures vp.Some? ==> Correction(b, vp, vr).pos < b.pos
    ensures vr.Some? ==> Correction(b, vp, vr).rate < b.rate
  {
    hide GainsFor;
    var g := GainsFor(b, vp, vr);
    GainSigns(b, vp, vr);
    ProductIsNonNegative(g.pp, b.pos);
    ProductIsNonNegative(g.pr, b.cross);
    ProductIsNonNegative(g.rp, b.cross);
    ProductIsNonNegative(g.rr, b.rate);
    if vp.Some? { ProductIsPositive(g.pp, b.pos); }
    if vr.Some? { ProductIsPositive(g.rr, b.rate); }
  }

  /** A measured state's variance after correction is its own gain times the measurement variance, and
      the gain is below one. */
  lemma MeasuredVariance(b: Block, vp: Option<real>, vr: Option<real>)
    requires Good(b) && Positive(vp) && Positive(vr)
    ensures var (g, c) := (GainsFor(b, vp, vr), Correction(b, vp, vr));
      && (vp.Some? ==> c.pos == g.pp * vp.value && 0.0 < g.pp < 1.0)
      && (vr.Some? ==> c.rate == g.rr * vr.value && 0.0 < g.rr < 1.0)
      && (vr.Some? ==> c.cross == g.pr * vr.value)
  {
    hide GainsFor, Good, Correction;
    if vp.Some? { PositionMeasured(b, vp, vr); }
    if vr.Some? { RateMeasured(b, vp, vr); }
  }

  lemma PositionMeasured(b: Block, vp: Option<real>, vr: Option<real>)
    requires Good(b) && Positive(vp) && Positive(vr) && vp.Some?
    ensures var g := GainsFor(b, vp, vr); Correction(b, vp, vr).pos == g.pp * vp.value && 0.0 < g.pp < 1.0
  {
    hide GainsFor, Good, SolvesNormal;
    var g := GainsFor(b, vp, vr);
    GoodFacts(b);
    GainSigns(b, vp, vr);
    GainsSolve(b, vp, vr);
    PositionEquation(b, vp, vr, g);
    OwnRow(g.pp, b.pos, vp.value, g.pr, b.cross);
  }

  lemma RateMeasured(b: Block, vp: Option<real>, vr: Option<real>)
    requires Good(b) && Positive(vp) && Positive(vr) && vr.Some?
    ensures var g := GainsFor(b, vp, vr);
      Correction(b, vp, vr).rate == g.rr * vr.value && 0.0 < g.rr < 1.0
        && Correction(b, vp, vr).cross == g.pr * vr.value
  {
    hide GainsFor, Good, SolvesNormal;
    var g := GainsFor(b, vp, vr);
    GoodFacts(b);
    GainSigns(b, vp, vr);
    GainsSolve(b, vp, vr);
    RateEquations(b, vp, vr, g);
    OwnRow(g.rr, b.rate, vr.value, g.rp, b.cross);
    CrossRow(g.pr, b.rate, vr.value, g.pp, b.cross);
  }

  lemma PositionEquation(b: Block, vp: Option<real>, vr: Option<real>, g: Gains)
    requires SolvesNormal(b, vp, vr, g) && vp.Some?
    ensures g.pp * (b.pos + vp.value) + g.pr * b.cross == b.pos
  {
  }

  lemma RateEquations(b: Block, vp: Option<real>, vr: Option<real>, g: Gains)
    requires SolvesNormal(b, vp, vr, g) && vr.Some?
    ensures g.rr * (b.rate + vr.value) + g.rp * b.cross == b.rate
    ensures g.pp * b.cross + g.pr * (b.rate + vr.value) == b.cross
  {
  }

  lemma GoodFacts(b: Block)
    requires Good(b)
    ensures b.pos > 0.0 && b.rate > 0.0 && b.cross >= 0.0 && b.pos * b.rate - b.cross * b.cross > 0.0
  {
  }

  /** A state's own normal equation, read as what correction leaves of its variance. */
  lemma OwnRow(k: real, p: real, v: real, l: real, c: real)
    requires p > 0.0 && v > 0.0 && l >= 0.0 && c >= 0.0 && k * (p + v) + l * c == p
    ensures p - k * p - l * c == k * v && k < 1.0
  {
    assert k * (p + v) == k * p + k * v;
    ProductIsNonNegative(l, c);
    if k >= 1.0 { ProductIsNonNegative(k - 1.0, p + v); assert false; }
  }

  lemma CrossRow(k: real, r: real, v: real, l: real, c: real)
    requires l * c + k * (r + v) == c
    ensures c - l * c - k * r == k * v
  {
    assert k * (r + v) == k * r + k * v;
  }

  /** A measured position variance ends strictly below the measurement variance. */
  lemma MeasuredBelowSensor(b: Block, vp: Option<real>, vr: Option<real>)
    requires Good(b) && Positive(vp) && Positive(vr) && vp.Some?
    ensures 0.0 < Correction(b, vp, vr).pos < vp.value
  {
    hide GainsFor, Correction, Good;
    MeasuredVariance(b, vp, vr);
    FractionOf(GainsFor(b, vp, vr).pp, vp.value, Correction(b, vp, vr).pos);
  }

  lemma FractionOf(k: real, v: real, x: real)
    requires 0.0 < k < 1.0 && v > 0.0 && x == k * v
    ensures 0.0 < x < v
  {
    ProductValue(k, v, x);
    ProductValue(1.0 - k, v, v - x);
  }

  /** Correcting a pair (measured `m`, unmeasured `u`, cross `c`) by the measurement of one of them:
      the result, and its determinant, shrink by the factor `1 - k`. */
  lemma SingleCorrection(m: real, c: real, u: real, v: real)
    requires m > 0.0 && u > 0.0 && c >= 0.0 && c * c < m * u && v > 0.0
    ensures var (k, h) := (m / (m + v), c / (m + v));
      && m - k * m > 0.0 && c - k * c >= 0.0 && u - h * c > 0.0 && c - h * m == c - k * c
      && (c - k * c) * (c - k * c) < (m - k * m) * (u - h * c)
  {
    var d := m + v;
    var k, h, s := m / d, c / d, v / d;
    assert k * d == m && h * d == c && s * d == v;
    DividePositive(v, d);
    OverDenominator(m, v, 1.0, 1.0, d, 1.0);
    assert k + s == 1.0;
    assert h * m == c * k by { assert h * m == h * (k * d) == (h * d) * k; }
    ProductIsPositive(m, s);
    ProductIsNonNegative(c, s);
    assert m - k * m == m * s && c - k * c == c * s;
    var det := m * u - c * c;
    ProductIsPositive(s, det);
    assert m * s * (u - h * c) - c * s * (c * s) == s * det by {
      assert m * s * (u - h * c) == s * (m * u) - s * (h * m * c);
      assert s * (h * m * c) == s * (c * k * c);
      assert c * s * (c * s) == s * (c * s * c);
      assert c * k * c + c * s * c == c * c * (k + s);
      assert s * (c * k * c) + s * (c * s * c) == s * (c * c * (k + s));
    }
    SingleUnmeasured(m, c, u, d, h);
  }

  lemma SingleUnmeasured(m: real, c: real, u: real, d: real, h: real)
    requires 0.0 < m < d && u > 0.0 && c * c < m * u && h * d == c
    ensures u - h * c > 0.0
  {
    ProductIsPositive(d - m, u);
    assert (u - h * c) * d == u * d - h * d * c;
    assert h * d * c == c * c;
    SignOfFactor(d, u - h * c, d * (u - h * c));
  }

  /** The determinant of a product of 2x2 matrices, used to read off the sign of `det K`. */
  lemma DeterminantOfProduct(k: real, l: real, m: real, n: real, s: real, c: real, t: real)
    ensures (k * s + l * c) * (m * c + n * t) - (k * c + l * t) * (m * s + n * c) == (s * t - c * c) * (k * n - l * m)
  {
    assert (k * s + l * c) * (m * c + n * t) == k * s * (m * c) + k * s * (n * t) + l * c * (m * c) + l * c * (n * t);
    assert (k * c + l * t) * (m * s + n * c) == k * c * (m * s) + k * c * (n * c) + l * t * (m * s) + l * t * (n * c);
    assert (s * t - c * c) * (k * n - l * m) == s * t * (k * n) - s * t * (l * m) - c * c * (k * n) + c * c * (l * m);
  }

  lemma PairCorrection(b: Block, vp: real, vr: real)
    requires Good(b) && vp > 0.0 && vr > 0.0
    ensures Good(Correction(b, Some(vp), Some(vr)))
  {
    hide GainsFor, Good, SolvesNormal, Det, Correction;
    var (p, c, r) := (b.pos, b.cross, b.rate);
    var g := GainsFor(b, Some(vp), Some(vr));
    GoodFacts(b);
    MeasuredVariance(b, Some(vp), Some(vr));
    GainSigns(b, Some(vp), Some(vr));
    GainsSolve(b, Some(vp), Some(vr));
    PairCross(b, vp, vr, g);
    PairDeterminant(b, vp, vr, g);
    DetIsPositive(p, c, r, vp, vr);
    PairIsGood(Correction(b, Some(vp), Some(vr)), g, vp, vr, Det(p, c, r, vp, vr), p * r - c * c);
  }

  lemma PairEquations(b: Block, vp: real, vr: real, g: Gains)
    requires SolvesNormal(b, Some(vp), Some(vr), g)
    ensures g.pp * (b.pos + vp) + g.pr * b.cross == b.pos && g.rp * (b.pos + vp) + g.rr * b.cross == b.cross
    ensures g.pp * b.cross + g.pr * (b.rate + vr) == b.cross && g.rp * b.cross + g.rr * (b.rate + vr) == b.rate
  {
  }

  /** The cross term left by a pair of measurements, in terms of either gain. */
  lemma PairCross(b: Block, vp: real, vr: real, g: Gains)
    requires Good(b) && vp > 0.0 && vr > 0.0 && g == GainsFor(b, Some(vp), Some(vr))
    requires SolvesNormal(b, Some(vp), Some(vr), g)
    ensures Correction(b, Some(vp), Some(vr)).cross == g.rp * vp
  {
    hide GainsFor, Good, SolvesNormal;
    PairEquations(b, vp, vr, g);
    CrossTermsAgree(b, Some(vp), Some(vr), g);
    CrossRow(g.rp, b.pos, vp, g.rr, b.cross);
  }

  /** The normal equations of a pair, taken as one matrix equation. */
  lemma PairDeterminant(b: Block, vp: real, vr: real, g: Gains)
    requires SolvesNormal(b, Some(vp), Some(vr), g)
    ensures b.pos * b.rate - b.cross * b.cross
         == Det(b.pos, b.cross, b.rate, vp, vr) * (g.pp * g.rr - g.pr * g.rp)
  {
    PairEquations(b, vp, vr, g);
    DeterminantOfProduct(g.pp, g.pr, g.rp, g.rr, b.pos + vp, b.cross, b.rate + vr);
  }

  lemma PairIsGood(after: Block, g: Gains, vp: real, vr: real, detS: real, detP: real)
    requires vp > 0.0 && vr > 0.0 && g.pp > 0.0 && g.rr > 0.0 && g.pr >= 0.0 && detS > 0.0 && detP > 0.0
    requires after.pos == g.pp * vp && after.rate == g.rr * vr && after.cross == g.pr * vr && after.cross == g.rp * vp
    requires detP == detS * (g.pp * g.rr - g.pr * g.rp)
    ensures Good(after)
  {
    ProductIsPositive(g.pp, vp);
    ProductIsPositive(g.rr, vr);
    ProductIsNonNegative(g.pr, vr);
    var detG := g.pp * g.rr - g.pr * g.rp;
    SignOfFactor(detS, detG, detP);
    ProductIsPositive(vp, vr);
    ProductIsPositive(vp * vr, detG);
    assert g.pp * vp * (g.rr * vr) - g.pr * vr * (g.rp * vp) == vp * vr * detG by {
      assert vp * vr * (g.pp * g.rr) == g.pp * vp * (g.rr * vr);
      assert vp * vr * (g.pr * g.rp) == g.pr * vr * (g.rp * vp);
    }
    assert after.cross * after.cross == g.pr * vr * (g.rp * vp);
  }

  /** Correcting with any subset of the block's measurements keeps the invariant. */
  lemma CorrectionKeepsGood(b: Block, vp: Option<real>, vr: Option<real>)
    requires Good(b) && Positive(vp) && Positive(vr)
    ensures Good(Correction(b, vp, vr))
  {
    if vp.Some? && vr.Some? {
      hide Good, Correction;
      PairCorrection(b, vp.value, vr.value);
    } else if vp.Some? {
      PositionCorrection(b, vp.value);
    } else if vr.Some? {
      RateCorrection(b, vr.value);
    } else {
      assert Correction(b, vp, vr) == b;
    }
  }

  lemma PositionCorrection(b: Block, v: real)
    requires Good(b) && v > 0.0
    ensures Good(Correction(b, Some(v), None))
  {
    SingleCorrection(b.pos, b.cross, b.rate, v);
  }

  lemma RateCorrection(b: Block, v: real)
    requires Good(b) && v > 0.0
    ensures Good(Correction(b, None, Some(v)))
  {
    hide Correction;
    var (k, h) := (b.rate / (b.rate + v), b.cross / (b.rate + v));
    SingleCorrection(b.rate, b.cross, b.pos, v);
    RateCorrected(b, v);
    var after := Correction(b, None, Some(v));
    assert after.cross == b.cross - k * b.cross;
    assert after.pos * after.rate == (b.rate - k * b.rate) * (b.pos - h * b.cross);
  }

  lemma RateCorrected(b: Block, v: real)
    requires Good(b) && v > 0.0
    ensures var (k, h) := (b.rate / (b.rate + v), b.cross / (b.rate + v));
      Correction(b, None, Some(v)) == Block(b.pos - h * b.cross, b.cross - h * b.rate, b.rate - k * b.rate)
  {
  }
}
