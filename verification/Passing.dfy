/** Pairs that pass through the whole vertical band inside the horizontal standard (separation.py):
    a condition on the relative motion, and what it says of the conflict window. */
module Passing {
  import opened Prelude
  import opened Windows
  import opened Separation

  /** The pair crosses both vertical levels within the lookahead, no
      further apart horizontally than the standard at either crossing, and nearer when level with each
      other.  A caller can work this out from the relative motion. */
  predicate PassesThrough(cfg: Config, rel: Relative) {
    rel.valt != 0.0
    && var (above, below) := (Crossing(cfg.verticalFt, rel.alt, rel.valt),
                              Crossing(-cfg.verticalFt, rel.alt, rel.valt));
    && 0.0 <= above <= cfg.lookaheadS && 0.0 <= below <= cfg.lookaheadS
    && DistanceSq(rel, above) <= StandardSq(cfg) && DistanceSq(rel, below) <= StandardSq(cfg)
    && DistanceSq(rel, (above + below) / 2.0) < StandardSq(cfg)
  }

  /** When the pair enters the band and when it leaves it. */
  function Enters(cfg: Config, rel: Relative): real
    requires rel.valt != 0.0
  {
    Min(Crossing(cfg.verticalFt, rel.alt, rel.valt), Crossing(-cfg.verticalFt, rel.alt, rel.valt))
  }

  function Leaves(cfg: Config, rel: Relative): real
    requires rel.valt != 0.0
  {
    Max(Crossing(cfg.verticalFt, rel.alt, rel.valt), Crossing(-cfg.verticalFt, rel.alt, rel.valt))
  }

  /** Between the two it is in the band, and otherwise not. */
  lemma InBandBetween(cfg: Config, rel: Relative, t: real)
    requires cfg.Valid() && rel.valt != 0.0
    ensures Enters(cfg, rel) < Leaves(cfg, rel)
    ensures Abs(Height(rel, t)) < cfg.verticalFt <==> Enters(cfg, rel) < t < Leaves(cfg, rel)
  {
    var (above, below) := (Crossing(cfg.verticalFt, rel.alt, rel.valt), Crossing(-cfg.verticalFt, rel.alt, rel.valt));
    assert above * rel.valt == cfg.verticalFt - rel.alt && below * rel.valt == -cfg.verticalFt - rel.alt;
    hide Crossing;
    LineMeets(rel.valt, above, t, cfg.verticalFt - rel.alt);
    LineMeets(rel.valt, below, t, -cfg.verticalFt - rel.alt);
    LineMeets(rel.valt, above, below, cfg.verticalFt - rel.alt);
  }

  /** A line through zero reaches a level at one time only, and is on either side of it before and after. */
  lemma LineMeets(rate: real, at: real, t: real, level: real)
    requires rate != 0.0 && at * rate == level
    ensures rate > 0.0 ==> (rate * t < level <==> t < at) && (rate * t > level <==> t > at)
    ensures rate < 0.0 ==> (rate * t < level <==> t > at) && (rate * t > level <==> t < at)
  {
    var gap := rate * (t - at);
    assert gap == rate * t - level;
    if t > at {
      if rate > 0.0 { ProductValue(rate, t - at, gap); } else { ProductValue(-rate, t - at, -gap); }
    } else if t < at {
      if rate > 0.0 { ProductValue(rate, at - t, -gap); } else { ProductValue(-rate, at - t, gap); }
    }
  }

  // ----- Horizontal distance between two times -----

  /** The quadratic at a time `p` before and `q` after another. */
  lemma Convexity(rel: Relative, t: real, p: real, q: real)
    requires p >= 0.0 && q >= 0.0
    ensures (p + q) * DistanceSq(rel, t) <= q * DistanceSq(rel, t - p) + p * DistanceSq(rel, t + q)
  {
    hide SpeedSq, Closing, RangeSq, DistanceSq;
    SpeedSqFacts(rel);
    DistanceIsQuadratic(rel, t);
    DistanceIsQuadratic(rel, t - p);
    DistanceIsQuadratic(rel, t + q);
    var (a, b) := (SpeedSq(rel), 2.0 * Closing(rel));
    var slope := 2.0 * a * t + b;
    Shifted(a, b, RangeSq(rel), t, -p);
    Shifted(a, b, RangeSq(rel), t, q);
    ConvexSum(DistanceSq(rel, t), slope, a, p, q);
  }

  lemma Shifted(a: real, b: real, c: real, t: real, d: real)
    ensures a * (t + d) * (t + d) + b * (t + d) + c == a * t * t + b * t + c + (2.0 * a * t + b) * d + a * d * d
  {
    var at := a * t;
    assert a * (t + d) * (t + d) == at * t + 2.0 * (at * d) + a * d * d;
    assert 2.0 * a * t * d == 2.0 * (at * d);
  }

  lemma ConvexSum(here: real, slope: real, a: real, p: real, q: real)
    requires a >= 0.0 && p >= 0.0 && q >= 0.0
    ensures (p + q) * here <= q * (here + slope * -p + a * -p * -p) + p * (here + slope * q + a * q * q)
  {
    var (pp, qq) := (a * -p * -p, a * q * q);
    assert pp == a * p * p;
    ProductIsNonNegative(a, p);
    ProductIsNonNegative(a * p, p);
    ProductIsNonNegative(a, q);
    ProductIsNonNegative(a * q, q);
    ProductIsNonNegative(q, pp);
    ProductIsNonNegative(p, qq);
    assert q * (slope * -p) == -(p * (slope * q));
    assert q * (here + slope * -p + pp) == q * here + q * (slope * -p) + q * pp;
    assert p * (here + slope * q + qq) == p * here + p * (slope * q) + p * qq;
  }

  lemma Scales(k: real, x: real, y: real)
    requires k > 0.0 && k * x < k * y
    ensures x < y
  {
    if x >= y { ProductIsNonNegative(k, x - y); }
  }

  /** Between two times no further apart than the limit, on either side of one nearer, the pair is nearer. */
  lemma NearerBetween(rel: Relative, a: real, t: real, near: real, limit: real)
    requires DistanceSq(rel, a) <= limit && DistanceSq(rel, near) < limit
    requires a < t <= near || near <= t < a
    ensures DistanceSq(rel, t) < limit
  {
    hide DistanceSq;
    if t != near {
      var (p, q) := (Abs(t - a), Abs(near - t));
      if a < t { Convexity(rel, t, p, q); } else { Convexity(rel, t, q, p); }
      ProductIsNonNegative(q, limit - DistanceSq(rel, a));
      ProductIsPositive(p, limit - DistanceSq(rel, near));
      Scales(p + q, DistanceSq(rel, t), limit);
    }
  }

  /** A pair further apart than the limit stays so for a while. */
  lemma FartherNearby(rel: Relative, a: real, reach: real, limit: real, later: bool) returns (d: real)
    requires reach > 0.0 && DistanceSq(rel, a) > limit
    ensures 0.0 < d <= reach && DistanceSq(rel, if later then a + d else a - d) > limit
  {
    hide SpeedSq, Closing, RangeSq, DistanceSq;
    var slope := 2.0 * SpeedSq(rel) * a + 2.0 * Closing(rel);
    var gap := DistanceSq(rel, a) - limit;
    d := EarlyStep(reach, gap, slope);
    if later {
      AboveTangent(rel, a, d, a + d);
      SmallFall(slope, d, gap, d);
    } else {
      AboveTangent(rel, a, -d, a - d);
      SmallFall(slope, -d, gap, d);
    }
  }

  lemma EarlyStep(reach: real, gap: real, slope: real) returns (d: real)
    requires reach > 0.0 && gap > 0.0
    ensures 0.0 < d <= reach && d <= gap / (2.0 * (Abs(slope) + 1.0))
  {
    var most := gap / (2.0 * (Abs(slope) + 1.0));
    assert most * (2.0 * (Abs(slope) + 1.0)) == gap;
    SignOfFactor(2.0 * (Abs(slope) + 1.0), most, gap);
    d := Min(reach, most);
  }

  /** The distance lies above each of its tangents. */
  lemma AboveTangent(rel: Relative, a: real, step: real, there: real)
    requires there == a + step
    ensures DistanceSq(rel, there)
         >= DistanceSq(rel, a) + (2.0 * SpeedSq(rel) * a + 2.0 * Closing(rel)) * step
  {
    hide SpeedSq, Closing, RangeSq, DistanceSq;
    DistanceIsQuadratic(rel, a);
    DistanceIsQuadratic(rel, there);
    Shifted(SpeedSq(rel), 2.0 * Closing(rel), RangeSq(rel), a, step);
    SpeedSqFacts(rel);
    Curvature(SpeedSq(rel), step, SpeedSq(rel) * step * step);
  }

  lemma Curvature(k: real, step: real, rise: real)
    requires k >= 0.0 && rise == k * step * step
    ensures rise >= 0.0
  {
    var square :| square == step * step;
    SquareValue(step, square);
    ProductIsNonNegative(k, square);
    assert rise == k * square;
  }

  lemma SmallFall(slope: real, step: real, gap: real, d: real)
    requires gap > 0.0 && d > 0.0 && Abs(step) == d && d <= gap / (2.0 * (Abs(slope) + 1.0))
    ensures slope * step > -gap
  {
    var steep := Abs(slope) + 1.0;
    var most := gap / (2.0 * steep);
    assert most * steep == gap / 2.0;
    ProductIsNonNegative(most - d, steep);
    assert (most - d) * steep == gap / 2.0 - d * steep;
    assert d * steep == Abs(slope) * d + d;
    assert slope * step == Abs(slope) * d || slope * step == -(Abs(slope) * d);
    ProductIsNonNegative(Abs(slope), d);
  }

  /** The pair is nearer than the limit between two times exactly when it is no further at either and nearer
      half way. */
  lemma NearerThroughout(rel: Relative, a: real, b: real, limit: real)
    requires a < b
    ensures (forall t :: a < t < b ==> DistanceSq(rel, t) < limit)
       <==> DistanceSq(rel, a) <= limit && DistanceSq(rel, b) <= limit && DistanceSq(rel, (a + b) / 2.0) < limit
  {
    hide DistanceSq;
    var half := (a + b) / 2.0;
    if DistanceSq(rel, a) > limit {
      var d := FartherNearby(rel, a, half - a, limit, true);
    } else if DistanceSq(rel, b) > limit {
      var d := FartherNearby(rel, b, b - half, limit, false);
    } else if DistanceSq(rel, half) < limit {
      forall t | a < t < b ensures DistanceSq(rel, t) < limit {
        NearerBetween(rel, if t <= half then a else b, t, half, limit);
      }
    }
  }

  // ----- What passing says of the conflict window -----

  /** The altitude difference is at or beyond the vertical standard at both ends of the conflict window. */
  predicate CrossesBand(cfg: Config, m: Maths, rel: Relative) {
    var w := ConflictWindow(cfg, m, rel);
    w.Some? && Abs(Height(rel, w.value.0)) >= cfg.verticalFt && Abs(Height(rel, w.value.1)) >= cfg.verticalFt
  }

  /** Both ends of a non-empty open interval of moments in the band are out of it exactly when it runs from
      entering to leaving. */
  lemma EndsOutOfBand(cfg: Config, rel: Relative, from: real, to: real)
    requires cfg.Valid() && from < to
    requires forall t :: Within(from, t, to) ==> Abs(Height(rel, t)) < cfg.verticalFt
    ensures Abs(Height(rel, from)) >= cfg.verticalFt && Abs(Height(rel, to)) >= cfg.verticalFt
       <==> rel.valt != 0.0 && from == Enters(cfg, rel) && to == Leaves(cfg, rel)
  {
    var half := (from + to) / 2.0;
    assert Within(from, half, to);
    if rel.valt != 0.0 {
      forall t ensures Abs(Height(rel, t)) < cfg.verticalFt <==> Enters(cfg, rel) < t < Leaves(cfg, rel) {
        InBandBetween(cfg, rel, t);
      }
      Nested(from, to, Enters(cfg, rel), Leaves(cfg, rel));
      InBandBetween(cfg, rel, from);
      InBandBetween(cfg, rel, to);
    } else {
      assert rel.valt * half == 0.0 && rel.valt * from == 0.0;
    }
  }

  predicate Within(lo: real, t: real, hi: real) { lo < t < hi }

  lemma Nested(lo: real, hi: real, a: real, b: real)
    requires lo < hi && forall t :: Within(lo, t, hi) ==> a <= t <= b
    ensures a <= lo && hi <= b
  {
    if lo < a { assert Within(lo, (lo + Min(a, hi)) / 2.0, hi); }
    if b < hi { assert Within(lo, (Max(lo, b) + hi) / 2.0, hi); }
  }

  /** In the motion alone, a pair crosses the whole band in its conflict window exactly when it passes
      through. */
  lemma CrossingIsPassing(cfg: Config, m: Maths, rel: Relative)
    requires cfg.Valid() && IsSqrt(m.sqrt) && Resolved(rel)
    ensures CrossesBand(cfg, m, rel) <==> PassesThrough(cfg, rel)
  {
    hide ConflictWindow, SnappedBreach, DistanceSq, Resolved, StandardSq, Height, Enters, Leaves, PassesThrough;
    WindowExact(cfg, m, rel);
    PassingIs(cfg, rel);
    var w := ConflictWindow(cfg, m, rel);
    if w.Some? {
      forall t | Within(w.value.0, t, w.value.1)
        ensures DistanceSq(rel, t) < StandardSq(cfg) && Abs(Height(rel, t)) < cfg.verticalFt
      {
        assert SnappedBreach(cfg, rel, t);
        SnappedIsTrueWhenResolved(cfg, rel, t);
      }
      EndsOutOfBand(cfg, rel, w.value.0, w.value.1);
    }
    if PassesThrough(cfg, rel) { PassingFillsWindow(cfg, m, rel); }
  }

  /** Passing through, in terms of entering and leaving. */
  lemma PassingIs(cfg: Config, rel: Relative)
    requires cfg.Valid()
    ensures PassesThrough(cfg, rel) <==>
      rel.valt != 0.0 && 0.0 <= Enters(cfg, rel) && Leaves(cfg, rel) <= cfg.lookaheadS
      && forall t :: Within(Enters(cfg, rel), t, Leaves(cfg, rel)) ==> DistanceSq(rel, t) < StandardSq(cfg)
  {
    hide DistanceSq, StandardSq, Crossing;
    if rel.valt != 0.0 {
      InBandBetween(cfg, rel, 0.0);
      assert forall t :: Enters(cfg, rel) < t < Leaves(cfg, rel) <==> Within(Enters(cfg, rel), t, Leaves(cfg, rel));
      NearerThroughout(rel, Enters(cfg, rel), Leaves(cfg, rel), StandardSq(cfg));
    }
  }

  lemma PassingFillsWindow(cfg: Config, m: Maths, rel: Relative)
    requires cfg.Valid() && IsSqrt(m.sqrt) && Resolved(rel) && PassesThrough(cfg, rel)
    ensures var w := ConflictWindow(cfg, m, rel);
      w.Some? && w.value.0 == Enters(cfg, rel) && w.value.1 == Leaves(cfg, rel)
  {
    hide ConflictWindow, SnappedBreach, DistanceSq, Resolved, StandardSq, Height, Enters, Leaves, PassesThrough;
    WindowExact(cfg, m, rel);
    PassingIs(cfg, rel);
    InBandBetween(cfg, rel, 0.0);
    var (enters, leaves) := (Enters(cfg, rel), Leaves(cfg, rel));
    forall t ensures Within(enters, t, leaves) <==> SnappedBreach(cfg, rel, t) {
      SnappedIsTrueWhenResolved(cfg, rel, t);
      InBandBetween(cfg, rel, t);
    }
    assert Within(enters, (enters + leaves) / 2.0, leaves);
    var w := ConflictWindow(cfg, m, rel).value;
    forall t | Within(w.0, t, w.1) ensures enters <= t <= leaves { assert SnappedBreach(cfg, rel, t); }
    Nested(w.0, w.1, enters, leaves);
    Nested(enters, leaves, w.0, w.1);
  }
}
