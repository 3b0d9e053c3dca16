/** How fast a pair must move for the detector to be exact (separation.py).  The solver reads coefficients
    below its tolerance as zero; these are the rates at which that never changes an answer. */
module Resolution {
  import opened Prelude
  import opened Windows
  import opened Separation
  import opened Geometry

  /** The detector's reading and the true motion agree on whether some moment of the lookahead breaches. */
  ghost predicate Agree(cfg: Config, rel: Relative) {
    (exists t :: 0.0 <= t <= cfg.lookaheadS && SnappedBreach(cfg, rel, t))
    <==> exists t :: 0.0 <= t <= cfg.lookaheadS && Breach(cfg, rel, t)
  }

  lemma ResolvedAgrees(cfg: Config, rel: Relative)
    requires Resolved(rel)
    ensures Agree(cfg, rel)
  {
    hide SnappedBreach, Breach, Resolved;
    forall t ensures SnappedBreach(cfg, rel, t) <==> Breach(cfg, rel, t) {
      SnappedIsTrueWhenResolved(cfg, rel, t);
    }
  }

  // ----- A climb below the tolerance -----

  /** A time within the lookahead so early that neither the rate `v` carries the pair as far as `limit`
      nor the rate `w` as far as `other`. */
  lemma EarlyEnough(horizon: real, v: real, limit: real, w: real, other: real) returns (t: real)
    requires horizon > 0.0 && v >= 0.0 && limit > 0.0 && w >= 0.0 && other > 0.0
    ensures 0.0 < t <= horizon && v * t < limit && w * t < other
  {
    hide EarlyFor;
    var (a, b) := (EarlyFor(v, limit), EarlyFor(w, other));
    t := Min(horizon, Min(a, b));
    assert 0.0 < t <= horizon && t <= a && t <= b;
    RateFits(v, limit, a, t);
    RateFits(w, other, b, t);
  }

  function EarlyFor(v: real, limit: real): (t: real)
    requires v >= 0.0 && limit > 0.0
    ensures t > 0.0 && v * t < limit
  {
    EarlyForFits(v, limit, limit / (v + 1.0));
    limit / (v + 1.0)
  }

  lemma EarlyForFits(v: real, limit: real, t: real)
    requires v >= 0.0 && limit > 0.0 && t == limit / (v + 1.0)
    ensures t > 0.0 && v * t < limit
  {
    assert t * (v + 1.0) == limit;
    if t <= 0.0 { ProductIsNonNegative(-t, v + 1.0); }
    assert t * (v + 1.0) == v * t + t;
  }

  lemma RateFits(v: real, limit: real, latest: real, t: real)
    requires v >= 0.0 && 0.0 < t <= latest && v * latest < limit
    ensures v * t < limit
  {
    ProductIsNonNegative(v, latest - t);
    assert v * (latest - t) == v * latest - v * t;
  }

  /** A pair in one place, apart by the vertical standard and closing vertically. */
  function SlowClimb(cfg: Config, ve: real, vn: real, valt: real): Relative {
    Relative(0.0, 0.0, ve, vn, if valt > 0.0 then -cfg.verticalFt else cfg.verticalFt, valt)
  }

  lemma TogetherAtFirst(cfg: Config, rel: Relative, t: real)
    requires cfg.Valid() && rel.e == rel.n == 0.0 && t >= 0.0
    requires (Abs(rel.ve) + Abs(rel.vn)) * t < cfg.horizontalNm
    ensures DistanceSq(rel, t) < StandardSq(cfg)
  {
    var (x, y, s) := (Abs(rel.ve) * t, Abs(rel.vn) * t, (Abs(rel.ve) + Abs(rel.vn)) * t);
    ProductIsNonNegative(Abs(rel.ve), t);
    ProductIsNonNegative(Abs(rel.vn), t);
    assert s == x + y;
    assert DistanceSq(rel, t) == x * x + y * y by { SignOfRateIsIrrelevant(rel, t); }
    ProductIsNonNegative(x, y);
    assert s * s == x * x + y * y + 2.0 * (x * y);
    SquareOrder(s, cfg.horizontalNm);
  }

  lemma SignOfRateIsIrrelevant(rel: Relative, t: real)
    requires rel.e == rel.n == 0.0
    ensures DistanceSq(rel, t)
         == Abs(rel.ve) * t * (Abs(rel.ve) * t) + Abs(rel.vn) * t * (Abs(rel.vn) * t)
  {
    assert rel.ve * t * (rel.ve * t) == Abs(rel.ve) * t * (Abs(rel.ve) * t);
    assert rel.vn * t * (rel.vn * t) == Abs(rel.vn) * t * (Abs(rel.vn) * t);
  }

  lemma ClimbIntoBand(cfg: Config, ve: real, vn: real, valt: real, t: real)
    requires cfg.Valid() && valt != 0.0 && t > 0.0 && Abs(valt) * t < cfg.verticalFt
    ensures Abs(Height(SlowClimb(cfg, ve, vn, valt), t)) < cfg.verticalFt
  {
    ProductIsPositive(Abs(valt), t);
    assert valt > 0.0 ==> valt * t == Abs(valt) * t;
    assert valt < 0.0 ==> valt * t == -(Abs(valt) * t);
  }

  /** With the climb read as zero the pair never comes inside the vertical standard. */
  lemma SlowClimbIsMissed(cfg: Config, ve: real, vn: real, valt: real)
    requires cfg.Valid() && 0.0 < Abs(valt) < TOLERANCE
    ensures !Agree(cfg, SlowClimb(cfg, ve, vn, valt))
  {
    hide SnappedBreach, Height, DistanceSq, StandardSq;
    var rel := SlowClimb(cfg, ve, vn, valt);
    var t := EarlyEnough(cfg.lookaheadS, Abs(valt), cfg.verticalFt, Abs(ve) + Abs(vn), cfg.horizontalNm);
    TogetherAtFirst(cfg, rel, t);
    ClimbIntoBand(cfg, ve, vn, valt, t);
    assert Breach(cfg, rel, t);
    forall u ensures !SnappedBreach(cfg, rel, u) { FlatVerticalIsNoBreach(cfg, rel, u); }
  }

  // ----- A closure below the tolerance -----

  /** A pair closing head on at speed `r` along the direction `(u, w)`, `apart` from each other. */
  function HeadOn(u: real, w: real, r: real, apart: real, alt: real, valt: real): Relative {
    Relative(-(apart * u), -(apart * w), u * r, w * r, alt, valt)
  }

  lemma HeadOnCoefficients(u: real, w: real, r: real, apart: real, alt: real, valt: real)
    requires u * u + w * w == 1.0
    ensures var rel := HeadOn(u, w, r, apart, alt, valt);
      SpeedSq(rel) == r * r && Closing(rel) == -(apart * r) && RangeSq(rel) == apart * apart
  {
    var (uu, ww) := (u * u, w * w);
    ScaledSquare(u, r);
    ScaledSquare(w, r);
    ScaledSquare(u, apart);
    ScaledSquare(w, apart);
    assert r * r * uu + r * r * ww == r * r * (uu + ww);
    assert apart * apart * uu + apart * apart * ww == apart * apart * (uu + ww);
    assert apart * u * (u * r) == apart * r * uu;
    assert apart * w * (w * r) == apart * r * ww;
    assert apart * r * uu + apart * r * ww == apart * r * (uu + ww);
  }

  lemma ScaledSquare(u: real, k: real)
    ensures u * k * (u * k) == k * k * (u * u) && k * u * (k * u) == k * k * (u * u)
  {
  }

  lemma HeadOnDistance(u: real, w: real, r: real, apart: real, alt: real, valt: real, t: real)
    requires u * u + w * w == 1.0
    ensures DistanceSq(HeadOn(u, w, r, apart, alt, valt), t) == (apart - r * t) * (apart - r * t)
  {
    hide SpeedSq, Closing, RangeSq, DistanceSq, HeadOn;
    var rel := HeadOn(u, w, r, apart, alt, valt);
    HeadOnCoefficients(u, w, r, apart, alt, valt);
    DistanceIsQuadratic(rel, t);
    var rt := r * t;
    assert r * r * t * t == rt * rt;
    assert 2.0 * -(apart * r) * t == -2.0 * (apart * rt);
    assert (apart - rt) * (apart - rt) == apart * apart - 2.0 * (apart * rt) + rt * rt;
  }

  /** At the standard, level with each other and so slow that the closure itself is read as zero, the pair
      comes inside and is never seen to. */
  lemma SlowDipIsMissed(cfg: Config, u: real, w: real, r: real, valt: real)
    requires cfg.Valid() && u * u + w * w == 1.0 && r > 0.0 && r * r < TOLERANCE
    requires 2.0 * (cfg.horizontalNm * r) < TOLERANCE
    ensures !Agree(cfg, HeadOn(u, w, r, cfg.horizontalNm, 0.0, valt))
  {
    hide Breach, SnappedBreach, HeadOn, SpeedSq, Closing, RangeSq;
    var rel := HeadOn(u, w, r, cfg.horizontalNm, 0.0, valt);
    var t := DipComesInside(cfg, u, w, r, valt);
    HeadOnCoefficients(u, w, r, cfg.horizontalNm, 0.0, valt);
    forall v ensures !SnappedBreach(cfg, rel, v) { DipReadAsFlat(cfg, rel, r, v); }
  }

  lemma DipComesInside(cfg: Config, u: real, w: real, r: real, valt: real) returns (t: real)
    requires cfg.Valid() && u * u + w * w == 1.0 && r > 0.0
    ensures 0.0 <= t <= cfg.lookaheadS && Breach(cfg, HeadOn(u, w, r, cfg.horizontalNm, 0.0, valt), t)
  {
    hide DistanceSq, HeadOn, Height;
    var rel := HeadOn(u, w, r, cfg.horizontalNm, 0.0, valt);
    t := EarlyEnough(cfg.lookaheadS, r, cfg.horizontalNm, Abs(valt), cfg.verticalFt);
    HeadOnDistance(u, w, r, cfg.horizontalNm, 0.0, valt, t);
    HeadOnVertical(u, w, r, cfg.horizontalNm, 0.0, valt);
    ProductIsPositive(r, t);
    SquareOrder(cfg.horizontalNm - r * t, cfg.horizontalNm);
    LevelStaysInside(cfg, rel, t);
  }

  lemma HeadOnVertical(u: real, w: real, r: real, apart: real, alt: real, valt: real)
    ensures HeadOn(u, w, r, apart, alt, valt).alt == alt && HeadOn(u, w, r, apart, alt, valt).valt == valt
  {
  }

  lemma LevelStaysInside(cfg: Config, rel: Relative, t: real)
    requires rel.alt == 0.0 && t >= 0.0 && Abs(rel.valt) * t < cfg.verticalFt
    ensures Abs(Height(rel, t)) < cfg.verticalFt
  {
    ProductIsNonNegative(Abs(rel.valt), t);
    assert rel.valt >= 0.0 ==> rel.valt * t == Abs(rel.valt) * t;
    assert rel.valt < 0.0 ==> rel.valt * t == -(Abs(rel.valt) * t);
  }

  lemma DipReadAsFlat(cfg: Config, rel: Relative, r: real, t: real)
    requires cfg.Valid() && r > 0.0 && SpeedSq(rel) == r * r < TOLERANCE && Closing(rel) == -(cfg.horizontalNm * r)
    requires RangeSq(rel) == cfg.horizontalNm * cfg.horizontalNm && 2.0 * (cfg.horizontalNm * r) < TOLERANCE
    ensures !SnappedBreach(cfg, rel, t)
  {
    hide SpeedSq, Closing, RangeSq, DistanceSq;
    var a, k :| a == r * r && k == cfg.horizontalNm * r;
    ProductValue(r, r, a);
    ProductValue(cfg.horizontalNm, r, k);
    FlatReading(a, k, t);
  }

  lemma FlatReading(a: real, k: real, t: real)
    requires 0.0 <= a < TOLERANCE && k >= 0.0 && 2.0 * k < TOLERANCE
    ensures SnappedQuadratic(a, 2.0 * -k, 0.0, t) == 0.0
  {
    assert Snap(2.0 * -k) == 0.0;
    assert 0.0 * t == 0.0;
  }

  /** Reaching the standard only as the lookahead ends, the pair never comes inside; without the term read
      as zero it seems to. */
  lemma SlowApproachIsInvented(cfg: Config, u: real, w: real, r: real, apart: real, alt: real, valt: real)
    requires cfg.Valid() && u * u + w * w == 1.0 && r > 0.0 && r * r < TOLERANCE
    requires 2.0 * (cfg.horizontalNm * r) >= TOLERANCE && Snap(valt) == valt
    requires apart == cfg.horizontalNm + r * cfg.lookaheadS && alt == -(valt * cfg.lookaheadS)
    ensures !Agree(cfg, HeadOn(u, w, r, apart, alt, valt))
  {
    hide Breach, SnappedBreach, HeadOn, Snap, SpeedSq, Closing, RangeSq;
    var rel := HeadOn(u, w, r, apart, alt, valt);
    HeadOnCoefficients(u, w, r, apart, alt, valt);
    HeadOnVertical(u, w, r, apart, alt, valt);
    ApproachSeemsToBreach(cfg, rel, r, apart);
    forall t | 0.0 <= t <= cfg.lookaheadS ensures !Breach(cfg, rel, t) {
      ApproachStaysOutside(cfg, u, w, r, apart, alt, valt, t);
    }
  }

  lemma ApproachStaysOutside(cfg: Config, u: real, w: real, r: real, apart: real, alt: real, valt: real, t: real)
    requires cfg.Valid() && u * u + w * w == 1.0 && r > 0.0 && apart == cfg.horizontalNm + r * cfg.lookaheadS
    requires 0.0 <= t <= cfg.lookaheadS
    ensures !Breach(cfg, HeadOn(u, w, r, apart, alt, valt), t)
  {
    hide DistanceSq, HeadOn, Height;
    HeadOnDistance(u, w, r, apart, alt, valt, t);
    ProductIsNonNegative(r, cfg.lookaheadS - t);
    assert apart - r * t == cfg.horizontalNm + r * (cfg.lookaheadS - t);
    SquareOrder(cfg.horizontalNm, apart - r * t);
  }

  lemma ApproachSeemsToBreach(cfg: Config, rel: Relative, r: real, apart: real)
    requires cfg.Valid() && r > 0.0 && apart == cfg.horizontalNm + r * cfg.lookaheadS
    requires SpeedSq(rel) == r * r < TOLERANCE && Closing(rel) == -(apart * r) && RangeSq(rel) == apart * apart
    requires 2.0 * (cfg.horizontalNm * r) >= TOLERANCE
    requires Snap(rel.valt) == rel.valt && rel.alt == -(rel.valt * cfg.lookaheadS)
    ensures SnappedBreach(cfg, rel, cfg.lookaheadS)
  {
    hide SpeedSq, Closing, RangeSq, StandardSq, DistanceSq, SnappedQuadratic, Snap;
    StandardIs(cfg);
    LineReading(cfg.horizontalNm, r, cfg.lookaheadS, apart, SpeedSq(rel), 2.0 * Closing(rel),
                RangeSq(rel) - StandardSq(cfg));
    assert rel.alt + Snap(rel.valt) * cfg.lookaheadS == 0.0;
  }

  lemma StandardIs(cfg: Config)
    ensures StandardSq(cfg) == cfg.horizontalNm * cfg.horizontalNm
  {
  }

  lemma LineReading(standard: real, r: real, horizon: real, apart: real, a: real, b: real, c: real)
    requires standard > 0.0 && r > 0.0 && horizon > 0.0 && apart == standard + r * horizon
    requires a == r * r && a < TOLERANCE && 2.0 * (standard * r) >= TOLERANCE
    requires b == 2.0 * -(apart * r) && c == apart * apart - standard * standard
    ensures SnappedQuadratic(a, b, c, horizon) < 0.0
  {
    var reach := r * horizon;
    ProductIsPositive(r, horizon);
    ProductIsPositive(reach, r);
    assert apart * r == standard * r + reach * r;
    assert Snap(b) == b;
    ProductValue(r, r, a);
    assert apart * r * horizon == apart * reach;
    assert b * horizon == -2.0 * (apart * r * horizon);
    assert SnappedQuadratic(a, b, c, horizon) == b * horizon + c;
    assert apart * apart == apart * standard + apart * reach;
    assert apart * standard == standard * standard + reach * standard;
    assert apart * reach == standard * reach + reach * reach;
    var square :| square == reach * reach;
    ProductValue(reach, reach, square);
    assert b * horizon + c == -square;
  }

  // ----- Exactly when the detector is exact -----

  /** A direction and a speed make up the velocity. */
  lemma DirectionOf(ve: real, vn: real, r: real) returns (u: real, w: real)
    requires r > 0.0 && r * r == ve * ve + vn * vn
    ensures u * r == ve && w * r == vn && u * u + w * w == 1.0
  {
    u, w := ve / r, vn / r;
    assert u * r == ve && w * r == vn;
    UnitLength(u, w, r, ve, vn, u * u + w * w);
  }

  lemma UnitLength(u: real, w: real, r: real, ve: real, vn: real, length: real)
    requires r > 0.0 && r * r == ve * ve + vn * vn && u * r == ve && w * r == vn && length == u * u + w * w
    ensures length == 1.0
  {
    ScaledSquare(u, r);
    ScaledSquare(w, r);
    var rr :| rr == r * r;
    ProductValue(r, r, rr);
    assert rr * length == rr * (u * u) + rr * (w * w);
    assert rr * (length - 1.0) == 0.0;
  }

  /** Rates that are not resolved are misjudged from some position. */
  lemma UnresolvedIsMisjudged(cfg: Config, m: Maths, ve: real, vn: real, valt: real) returns (rel: Relative)
    requires cfg.Valid() && IsSqrt(m.sqrt) && !ResolvedRates(ve, vn, valt)
    ensures rel.ve == ve && rel.vn == vn && rel.valt == valt && !Agree(cfg, rel)
  {
    hide Agree;
    if 0.0 < Abs(valt) < TOLERANCE {
      rel := SlowClimb(cfg, ve, vn, valt);
      SlowClimbIsMissed(cfg, ve, vn, valt);
    } else {
      SumOfSquaresValue(ve, vn, ve * ve + vn * vn);
      var r := m.sqrt(ve * ve + vn * vn);
      assert r * r == ve * ve + vn * vn && r >= 0.0;
      assert r > 0.0;
      var u, w := DirectionOf(ve, vn, r);
      if 2.0 * (cfg.horizontalNm * r) < TOLERANCE {
        rel := HeadOn(u, w, r, cfg.horizontalNm, 0.0, valt);
        SlowDipIsMissed(cfg, u, w, r, valt);
      } else {
        var (apart, alt) := (cfg.horizontalNm + r * cfg.lookaheadS, -(valt * cfg.lookaheadS));
        rel := HeadOn(u, w, r, apart, alt, valt);
        SlowApproachIsInvented(cfg, u, w, r, apart, alt, valt);
      }
    }
  }

  /** Neither the squared speed nor the vertical rate falls strictly between zero and the tolerance. */
  predicate ResolvedRates(ve: real, vn: real, valt: real) {
    Resolved(Relative(0.0, 0.0, ve, vn, 0.0, valt))
  }

  /** The two tracks move at these rates relative to each other. */
  predicate MoveAt(first: Track, second: Track, ve: real, vn: real, valt: real) {
    var rel := RelativeMotion(first, second);
    rel.ve == ve && rel.vn == vn && rel.valt == valt
  }

  ghost predicate Exact(cfg: Config, m: Maths, first: Track, second: Track)
    requires IsSqrt(m.sqrt)
  {
    TestPair(cfg, m, first, second).Some?
    <==> exists t :: 0.0 <= t <= cfg.lookaheadS && Breach(cfg, RelativeMotion(first, second), t)
  }

  /** A pair of tracks in this relative motion. */
  function PairAt(rel: Relative): (Track, Track) {
    (Track("a", None, 0, 0.0, 0.0, 0.0, 0.0, 0.0, 0.0, 0.0, None, None, None),
     Track("b", None, 0, rel.e, rel.n, rel.ve * 3600.0, rel.vn * 3600.0, rel.alt, rel.valt * 60.0, 0.0, None, None,
           None))
  }

  lemma PairMovesSo(rel: Relative)
    ensures RelativeMotion(PairAt(rel).0, PairAt(rel).1) == rel
  {
  }

  lemma ExactMeansAgree(cfg: Config, m: Maths, first: Track, second: Track)
    requires cfg.Valid() && IsSqrt(m.sqrt) && !Weighed(cfg, m, first, second)
    ensures Exact(cfg, m, first, second) <==> Agree(cfg, RelativeMotion(first, second))
  {
    hide TestPair, RelativeMotion, SnappedBreach, Breach, Weighed;
    DecidesSnappedBreach(cfg, m, first, second);
  }

  /** At given relative rates the deterministic test reports exactly the pairs that breach, wherever they
      are, if and only if the rates are resolved. */
  lemma ExactExactlyWhenResolved(cfg: Config, m: Maths, ve: real, vn: real, valt: real)
    requires cfg.Valid() && IsSqrt(m.sqrt)
    ensures ResolvedRates(ve, vn, valt) <==>
      forall first, second :: MoveAt(first, second, ve, vn, valt) && !Weighed(cfg, m, first, second) ==>
        Exact(cfg, m, first, second)
  {
    hide Exact, Agree, Weighed, RelativeMotion;
    if ResolvedRates(ve, vn, valt) {
      forall first, second | MoveAt(first, second, ve, vn, valt) && !Weighed(cfg, m, first, second)
        ensures Exact(cfg, m, first, second)
      {
        var rel := RelativeMotion(first, second);
        assert Resolved(rel);
        ResolvedAgrees(cfg, rel);
        ExactMeansAgree(cfg, m, first, second);
      }
    } else {
      var rel := UnresolvedIsMisjudged(cfg, m, ve, vn, valt);
      var (first, second) := PairAt(rel);
      PairMovesSo(rel);
      UnweighedPair(cfg, m, rel);
      ExactMeansAgree(cfg, m, first, second);
      assert MoveAt(first, second, ve, vn, valt) && !Weighed(cfg, m, first, second) && !Exact(cfg, m, first, second);
    }
  }

  lemma UnweighedPair(cfg: Config, m: Maths, rel: Relative)
    requires IsSqrt(m.sqrt)
    ensures !Weighed(cfg, m, PairAt(rel).0, PairAt(rel).1)
  {
  }
}
