/** The correction step of the filter (kalman.py): innovation covariance, its inverse, the gain, and
    the Joseph form, as matrices and as blocks. */
module KalmanUpdate {
  import opened Prelude
  import opened Matrix
  import opened Blocks
  import opened Kalman

  /** Measurement variance of each state; absent where the report lacks the field. */
  type Variances = vs: seq<Option<real>> | |vs| == 6 witness [None, None, None, None, None, None]

  predicate AllPositive(vs: Variances) {
    forall i: State :: Positive(vs[i])
  }

  predicate AllGood(bs: Triple) {
    Good(bs[0]) && Good(bs[1]) && Good(bs[2])
  }

  /** The measured states in the order the rows were appended, with their variances. */
  ghost predicate Lists(rows: seq<State>, variances: seq<real>, vs: Variances) {
    && |rows| == |variances|
    && (forall a, b :: 0 <= a < b < |rows| ==> rows[a] != rows[b])
    && (forall a :: 0 <= a < |rows| ==> vs[rows[a]] == Some(variances[a]))
    && (forall i: State :: vs[i].Some? ==> i in rows)
  }

  /** The row that measures state `i`, or -1. */
  ghost function Where(rows: seq<State>, i: State): (a: int)
    ensures i in rows ==> 0 <= a < |rows| && rows[a] == i
    ensures i !in rows ==> a == -1
  {
    if i in rows then var a :| 0 <= a < |rows| && rows[a] == i; a else -1
  }

  ghost predicate IsSelection(h: Mat, rows: seq<State>) {
    Shape(h, |rows|, 6)
    && forall a, k: State :: 0 <= a < |rows| ==> At(h, a, k) == if k == rows[a] then 1.0 else 0.0
  }

  ghost predicate IsDiagonal(r: Mat, variances: seq<real>) {
    Shape(r, |variances|, |variances|)
    && forall a, b :: 0 <= a < |variances| && 0 <= b < |variances|
         ==> At(r, a, b) == if a == b then variances[a] else 0.0
  }

  function Innovation(h: Mat, p: Mat, r: Mat, m: nat): Mat {
    Add(Mul(Mul(h, p, m, 6, 6), Transpose(h, m, 6), m, 6, m), r, m, m)
  }

  function Gain(h: Mat, p: Mat, inverse: Mat, m: nat): Mat {
    Mul(Mul(p, Transpose(h, m, 6), 6, 6, m), inverse, 6, m, m)
  }

  // ----- The innovation covariance and its inverse -----

  lemma SelectRow(h: Mat, rows: seq<State>, p: Mat, a: int, j: int)
    requires IsSelection(h, rows) && 0 <= a < |rows|
    ensures Dot(h, a, p, j, 6) == At(p, rows[a], j)
  {
    hide Dot;
    DotSparse(h, a, p, j, 6, rows[a], rows[a]);
  }

  lemma SelectColumn(h: Mat, rows: seq<State>, x: Mat, i: int, a: int)
    requires IsSelection(h, rows) && 0 <= a < |rows|
    ensures Dot(x, i, Transpose(h, |rows|, 6), a, 6) == At(x, i, rows[a])
  {
    hide Dot;
    var ht := Transpose(h, |rows|, 6);
    assert forall k: State :: At(ht, k, a) == At(h, a, k);
    DotSparse(x, i, ht, a, 6, rows[a], rows[a]);
  }

  function SEntry(bs: Triple, rows: seq<State>, variances: seq<real>, a: int, b: int): real
    requires 0 <= a < |rows| == |variances| && 0 <= b < |rows|
  {
    Entry(bs, rows[a], rows[b]) + (if a == b then variances[a] else 0.0)
  }

  lemma InnovationEntries(h: Mat, rows: seq<State>, p: Mat, bs: Triple, r: Mat, variances: seq<real>, a: int, b: int)
    requires IsSelection(h, rows) && Represents(p, bs) && IsDiagonal(r, variances)
    requires 0 <= a < |rows| == |variances| && 0 <= b < |rows|
    ensures At(Innovation(h, p, r, |rows|), a, b) == SEntry(bs, rows, variances, a, b)
  {
    hide Dot, Entry;
    var hp := Mul(h, p, |rows|, 6, 6);
    SelectColumn(h, rows, hp, a, b);
    SelectRow(h, rows, p, a, rows[b]);
  }

  /** Innovation variance of a measured state. */
  function InnovationVariance(bs: Triple, vs: Variances, i: State): real
    requires vs[i].Some?
  {
    Variance(bs, i) + vs[i].value
  }

  /** Determinant of the innovation covariance of the pair of states to which `i` belongs. */
  function PairDet(bs: Triple, vs: Variances, i: State): real
    requires vs[i].Some? && vs[Partner(i)].Some?
  {
    Det(Variance(bs, i), bs[BlockIndex(i)].cross, Variance(bs, Partner(i)), vs[i].value, vs[Partner(i)].value)
  }

  lemma PairDetFacts(bs: Triple, vs: Variances, i: State)
    requires AllGood(bs) && AllPositive(vs) && vs[i].Some? && vs[Partner(i)].Some?
    ensures PairDet(bs, vs, i) > 0.0 && PairDet(bs, vs, Partner(i)) == PairDet(bs, vs, i)
    ensures PairDet(bs, vs, i)
         == InnovationVariance(bs, vs, i) * InnovationVariance(bs, vs, Partner(i))
            - bs[BlockIndex(i)].cross * bs[BlockIndex(i)].cross
    ensures InnovationVariance(bs, vs, i) > 0.0
  {
    hide Good, Det, AllGood;
    PartnerIsInvolution(i, Partner(i));
    var (p, c, r) := (Variance(bs, i), bs[BlockIndex(i)].cross, Variance(bs, Partner(i)));
    BlockOf(bs, i);
    DetIsPositive(p, c, r, vs[i].value, vs[Partner(i)].value);
    DetFacts(p, c, r, vs[i].value, vs[Partner(i)].value);
  }

  /** The block a state belongs to, seen from that state. */
  lemma BlockOf(bs: Triple, i: State)
    requires AllGood(bs)
    ensures Variance(bs, i) > 0.0 && Variance(bs, Partner(i)) > 0.0
    ensures bs[BlockIndex(i)].cross * bs[BlockIndex(i)].cross < Variance(bs, i) * Variance(bs, Partner(i))
  {
    var b := bs[BlockIndex(i)];
    assert Good(b);
    assert b.pos * b.rate == b.rate * b.pos;
  }

  lemma DetFacts(p: real, c: real, r: real, vp: real, vr: real)
    ensures Det(p, c, r, vp, vr) == Det(r, c, p, vr, vp) == (p + vp) * (r + vr) - c * c
  {
  }

  /** Diagonal and partner entries of the inverse, by the state the row measures. */
  function InverseOwn(bs: Triple, vs: Variances, i: State): real
    requires AllGood(bs) && AllPositive(vs) && vs[i].Some?
  {
    if vs[Partner(i)].Some? then
      PairDetFacts(bs, vs, i);
      (Variance(bs, Partner(i)) + vs[Partner(i)].value) / PairDet(bs, vs, i)
    else 1.0 / (Variance(bs, i) + vs[i].value)
  }

  function InversePartner(bs: Triple, vs: Variances, i: State): real
    requires AllGood(bs) && AllPositive(vs) && vs[i].Some? && vs[Partner(i)].Some?
  {
    PairDetFacts(bs, vs, i);
    -bs[BlockIndex(i)].cross / PairDet(bs, vs, i)
  }

  function InverseEntry(bs: Triple, vs: Variances, i: State, j: State): real
    requires AllGood(bs) && AllPositive(vs) && vs[i].Some? && vs[j].Some?
  {
    if j == i then InverseOwn(bs, vs, i) else if j == Partner(i) then InversePartner(bs, vs, i) else 0.0
  }

  /** The inverse of the innovation covariance, block by block. */
  ghost predicate IsBlockInverse(l: Mat, bs: Triple, vs: Variances, rows: seq<State>)
    requires AllGood(bs) && AllPositive(vs) && forall a :: 0 <= a < |rows| ==> vs[rows[a]].Some?
  {
    Shape(l, |rows|, |rows|)
    && forall a, b :: 0 <= a < |rows| && 0 <= b < |rows| ==> At(l, a, b) == InverseEntry(bs, vs, rows[a], rows[b])
  }

  function BlockInverse(bs: Triple, vs: Variances, rows: seq<State>): (l: Mat)
    requires AllGood(bs) && AllPositive(vs) && forall a :: 0 <= a < |rows| ==> vs[rows[a]].Some?
    ensures IsBlockInverse(l, bs, vs, rows)
  {
    Build(|rows|, |rows|, (a, b) =>
      if 0 <= a < |rows| && 0 <= b < |rows| then InverseEntry(bs, vs, rows[a], rows[b]) else 0.0)
  }

  lemma FractionTimes(n: real, d: real, x: real, y: real)
    requires d != 0.0 && x * n == y * d
    ensures x * (n / d) == y
  {
    OverDenominator(n, 0.0, x, 0.0, d, y);
  }

  lemma Reciprocal(d: real, x: real)
    requires d != 0.0
    ensures x * (1.0 / d) == x / d
  {
    assert x / d * d == x;
    FractionTimes(1.0, d, x, x / d);
  }

  /** Row of the innovation covariance against column of its inverse, in scalars. */
  lemma PairIdentity(u: real, w: real, c: real, d: real)
    requires d == u * w - c * c && d != 0.0
    ensures u * (w / d) + c * (-c / d) == 1.0
    ensures u * (-c / d) + c * (u / d) == 0.0
  {
    OverDenominator(w, -c, u, c, d, 1.0);
    OverDenominator(-c, u, u, c, d, 0.0);
  }

  /** Row `i` of the innovation covariance against column `j` of its inverse. */
  function IdentityProduct(bs: Triple, vs: Variances, i: State, j: State): real
    requires AllGood(bs) && AllPositive(vs) && vs[i].Some? && vs[j].Some?
  {
    InnovationVariance(bs, vs, i) * InverseEntry(bs, vs, i, j)
    + (if vs[Partner(i)].Some? then bs[BlockIndex(i)].cross * InverseEntry(bs, vs, Partner(i), j) else 0.0)
  }

  lemma InversePaired(bs: Triple, vs: Variances, i: State)
    requires AllGood(bs) && AllPositive(vs) && vs[i].Some? && vs[Partner(i)].Some?
    ensures PairDet(bs, vs, i) > 0.0
    ensures InverseEntry(bs, vs, i, i) == InnovationVariance(bs, vs, Partner(i)) / PairDet(bs, vs, i)
    ensures InverseEntry(bs, vs, i, Partner(i)) == -bs[BlockIndex(i)].cross / PairDet(bs, vs, i)
  {
    PairDetFacts(bs, vs, i);
    hide PairDet;
  }

  lemma IdentityPaired(bs: Triple, vs: Variances, i: State)
    requires AllGood(bs) && AllPositive(vs) && vs[i].Some? && vs[Partner(i)].Some?
    ensures IdentityProduct(bs, vs, i, i) == 1.0 && IdentityProduct(bs, vs, i, Partner(i)) == 0.0
  {
    hide PairDet, InverseEntry, InnovationVariance;
    PartnerIsInvolution(i, Partner(i));
    PairDetFacts(bs, vs, i);
    InversePaired(bs, vs, i);
    InversePaired(bs, vs, Partner(i));
    hide Partner, BlockIndex;
    PairIdentity(InnovationVariance(bs, vs, i), InnovationVariance(bs, vs, Partner(i)),
                 bs[BlockIndex(i)].cross, PairDet(bs, vs, i));
  }

  lemma IdentityAlone(bs: Triple, vs: Variances, i: State)
    requires AllGood(bs) && AllPositive(vs) && vs[i].Some? && vs[Partner(i)].None?
    ensures IdentityProduct(bs, vs, i, i) == 1.0
  {
    var u := InnovationVariance(bs, vs, i);
    assert u > 0.0 && InverseEntry(bs, vs, i, i) == 1.0 / u;
    FractionTimes(1.0, u, u, 1.0);
    hide InverseEntry, InnovationVariance;
  }

  lemma IdentityEntry(bs: Triple, vs: Variances, i: State, j: State)
    requires AllGood(bs) && AllPositive(vs) && vs[i].Some? && vs[j].Some?
    ensures IdentityProduct(bs, vs, i, j) == if i == j then 1.0 else 0.0
  {
    if j == i {
      if vs[Partner(i)].Some? { IdentityPaired(bs, vs, i); } else { IdentityAlone(bs, vs, i); }
    } else if j == Partner(i) {
      IdentityPaired(bs, vs, i);
    } else {
      PartnerIsInvolution(i, j);
      PartnerIsInvolution(Partner(i), j);
      hide InnovationVariance, InverseOwn, InversePartner;
    }
  }

  /** Everything the correction is computed from, tied to the blocks and variances it stands for. */
  ghost predicate Setting(h: Mat, p: Mat, r: Mat, rows: seq<State>, variances: seq<real>, bs: Triple, vs: Variances) {
    && Lists(rows, variances, vs) && AllPositive(vs) && AllGood(bs)
    && IsSelection(h, rows) && Represents(p, bs) && IsDiagonal(r, variances)
  }

  lemma EntrySymmetric(bs: Triple, i: State, j: State)
    ensures Entry(bs, i, j) == Entry(bs, j, i)
  {
    PartnerIsInvolution(i, j);
  }

  lemma InverseSymmetric(bs: Triple, vs: Variances, i: State, j: State)
    requires AllGood(bs) && AllPositive(vs) && vs[i].Some? && vs[j].Some?
    ensures InverseEntry(bs, vs, i, j) == InverseEntry(bs, vs, j, i)
  {
    PartnerIsInvolution(i, j);
    if j == Partner(i) { PairDetFacts(bs, vs, i); }
    hide PairDet, InverseOwn;
  }

  /** Row `a` of the innovation covariance: its own variance, its partner's cross term, nothing else. */
  lemma InnovationRow(h: Mat, p: Mat, r: Mat, rows: seq<State>, variances: seq<real>, bs: Triple, vs: Variances, a: int)
    requires Setting(h, p, r, rows, variances, bs, vs) && 0 <= a < |rows|
    ensures var (s, w) := (Innovation(h, p, r, |rows|), Where(rows, Partner(rows[a])));
      && At(s, a, a) == InnovationVariance(bs, vs, rows[a])
      && (w >= 0 ==> At(s, a, w) == bs[BlockIndex(rows[a])].cross)
      && forall k :: 0 <= k < |rows| && k != a && k != w ==> At(s, a, k) == 0.0
  {
    var s, w := Innovation(h, p, r, |rows|), Where(rows, Partner(rows[a]));
    hide Innovation;
    forall k | 0 <= k < |rows| ensures At(s, a, k) == SEntry(bs, rows, variances, a, k) {
      InnovationEntries(h, rows, p, bs, r, variances, a, k);
    }
  }

  lemma PartnerRow(rows: seq<State>, variances: seq<real>, vs: Variances, a: int)
    requires Lists(rows, variances, vs) && 0 <= a < |rows|
    ensures var w := Where(rows, Partner(rows[a]));
      && (w >= 0 <==> vs[Partner(rows[a])].Some?) && -1 <= w < |rows| && w != a
      && (w >= 0 ==> rows[w] == Partner(rows[a]))
  {
  }

  /** Entry of the innovation covariance times the block inverse. */
  lemma InverseProduct(h: Mat, p: Mat, r: Mat, rows: seq<State>, variances: seq<real>, bs: Triple, vs: Variances,
                       a: int, b: int)
    requires Setting(h, p, r, rows, variances, bs, vs) && 0 <= a < |rows| && 0 <= b < |rows|
    ensures Dot(Innovation(h, p, r, |rows|), a, BlockInverse(bs, vs, rows), b, |rows|) == if a == b then 1.0 else 0.0
  {
    hide Innovation, BlockInverse, Dot, At, InverseEntry, InnovationVariance, Partner, BlockIndex;
    var (m, i, j) := (|rows|, rows[a], rows[b]);
    var s, l, w := Innovation(h, p, r, m), BlockInverse(bs, vs, rows), Where(rows, Partner(i));
    InnovationRow(h, p, r, rows, variances, bs, vs, a);
    PartnerRow(rows, variances, vs, a);
    assert i == j <==> a == b;
    IdentityEntry(bs, vs, i, j);
    assert At(l, a, b) == InverseEntry(bs, vs, i, j);
    assert w >= 0 ==> At(l, w, b) == InverseEntry(bs, vs, Partner(i), j);
    hide Setting, Lists, IsBlockInverse;
    TwoRowTerms(s, a, l, b, m, w, IdentityProduct(bs, vs, i, j));
  }

  lemma TwoRowTerms(s: Mat, a: int, l: Mat, b: int, m: nat, w: int, product: real)
    requires 0 <= a < m && w != a && -1 <= w < m
    requires forall k :: 0 <= k < m && k != a && k != w ==> At(s, a, k) == 0.0
    requires product == At(s, a, a) * At(l, a, b) + (if w >= 0 then At(s, a, w) * At(l, w, b) else 0.0)
    ensures Dot(s, a, l, b, m) == product
  {
    hide At, Dot;
    DotSparse(s, a, l, b, m, a, w);
  }

  /** The innovation covariance is invertible, and this is its inverse from either side. */
  lemma InnovationIsInvertible(h: Mat, p: Mat, r: Mat, rows: seq<State>, variances: seq<real>, bs: Triple,
                               vs: Variances)
    requires Setting(h, p, r, rows, variances, bs, vs)
    ensures var (m, s, l) := (|rows|, Innovation(h, p, r, |rows|), BlockInverse(bs, vs, rows));
      Mul(s, l, m, m, m) == Eye(m) && Mul(l, s, m, m, m) == Eye(m)
  {
    var (m, s, l) := (|rows|, Innovation(h, p, r, |rows|), BlockInverse(bs, vs, rows));
    hide Innovation, Dot;
    forall a, b | 0 <= a < m && 0 <= b < m
      ensures At(Mul(s, l, m, m, m), a, b) == At(Eye(m), a, b) && At(Mul(l, s, m, m, m), a, b) == At(Eye(m), a, b)
    {
      InverseProduct(h, p, r, rows, variances, bs, vs, a, b);
      InverseProduct(h, p, r, rows, variances, bs, vs, b, a);
      InnovationSymmetric(h, p, r, rows, variances, bs, vs, b);
      InverseMirrors(bs, vs, rows, a);
      hide Setting;
      DotFlips(l, a, s, b, m);
    }
    SameEntries(Mul(s, l, m, m, m), Eye(m), m, m);
    SameEntries(Mul(l, s, m, m, m), Eye(m), m, m);
  }

  lemma InnovationSymmetric(h: Mat, p: Mat, r: Mat, rows: seq<State>, variances: seq<real>, bs: Triple, vs: Variances,
                            b: int)
    requires Setting(h, p, r, rows, variances, bs, vs) && 0 <= b < |rows|
    ensures var s := Innovation(h, p, r, |rows|); forall t :: 0 <= t < |rows| ==> At(s, t, b) == At(s, b, t)
  {
    hide Innovation, Entry;
    forall t | 0 <= t < |rows| ensures At(Innovation(h, p, r, |rows|), t, b) == At(Innovation(h, p, r, |rows|), b, t) {
      InnovationEntries(h, rows, p, bs, r, variances, t, b);
      InnovationEntries(h, rows, p, bs, r, variances, b, t);
      EntrySymmetric(bs, rows[t], rows[b]);
    }
  }

  lemma InverseMirrors(bs: Triple, vs: Variances, rows: seq<State>, a: int)
    requires AllGood(bs) && AllPositive(vs) && forall b :: 0 <= b < |rows| ==> vs[rows[b]].Some?
    requires 0 <= a < |rows|
    ensures var l := BlockInverse(bs, vs, rows); forall t :: 0 <= t < |rows| ==> At(l, a, t) == At(l, t, a)
  {
    hide BlockInverse, InverseEntry, AllGood;
    forall t | 0 <= t < |rows| ensures At(BlockInverse(bs, vs, rows), a, t) == At(BlockInverse(bs, vs, rows), t, a) {
      InverseSymmetric(bs, vs, rows[a], rows[t]);
    }
  }

  /** What the platform's inverse promises: a right inverse of every invertible matrix. */
  ghost predicate Inverts(inv: (Mat, nat) -> Mat) {
    forall s: Mat, l: Mat, n: nat :: Shape(s, n, n) && Shape(l, n, n)
      && Mul(s, l, n, n, n) == Eye(n) && Mul(l, s, n, n, n) == Eye(n)
      ==> Shape(inv(s, n), n, n) && Mul(s, inv(s, n), n, n, n) == Eye(n)
  }

  /** Whatever inverse the platform returns, it is the block inverse. */
  lemma PlatformInverseIsBlockInverse(inv: (Mat, nat) -> Mat, h: Mat, p: Mat, r: Mat, rows: seq<State>,
                                      variances: seq<real>, bs: Triple, vs: Variances)
    requires Inverts(inv) && Setting(h, p, r, rows, variances, bs, vs)
    ensures inv(Innovation(h, p, r, |rows|), |rows|) == BlockInverse(bs, vs, rows)
  {
    var (m, s, l) := (|rows|, Innovation(h, p, r, |rows|), BlockInverse(bs, vs, rows));
    InnovationIsInvertible(h, p, r, rows, variances, bs, vs);
    assert Shape(s, m, m) && Shape(l, m, m);
    hide Setting, Innovation, BlockInverse;
    InverseIsUnique(s, l, inv(s, m), m);
  }

  // ----- The gain -----

  /** The position-like state of the pair to which `i` belongs. */
  function PositionOf(i: State): (p: State)
    ensures IsPosition(p) && BlockIndex(p) == BlockIndex(i)
  {
    if IsPosition(i) then i else Partner(i)
  }

  function GainsOf(bs: Triple, vs: Variances, i: State): Gains
    requires AllGood(bs) && AllPositive(vs)
  {
    GainsFor(bs[BlockIndex(i)], vs[PositionOf(i)], vs[Partner(PositionOf(i))])
  }

  /** Gain of state `i` from the measurement of state `j`. */
  function GainEntry(bs: Triple, vs: Variances, i: State, j: State): real
    requires AllGood(bs) && AllPositive(vs)
  {
    var g := GainsOf(bs, vs, i);
    if j == i then (if IsPosition(i) then g.pp else g.rr)
    else if j == Partner(i) then (if IsPosition(i) then g.pr else g.rp)
    else 0.0
  }

  lemma GainEntryPaired(bs: Triple, vs: Variances, i: State)
    requires AllGood(bs) && AllPositive(vs) && vs[i].Some? && vs[Partner(i)].Some?
    ensures PairDet(bs, vs, i) > 0.0
    ensures var (p, c, q) := (Variance(bs, i), bs[BlockIndex(i)].cross, Variance(bs, Partner(i)));
      && GainEntry(bs, vs, i, i) == OwnGain(p, c, q, vs[i].value, vs[Partner(i)].value)
      && GainEntry(bs, vs, i, Partner(i)) == PartnerGain(p, c, q, vs[i].value, vs[Partner(i)].value)
  {
    PartnerIsInvolution(i, Partner(i));
    PairDetFacts(bs, vs, i);
    hide Det, OwnGain, PartnerGain;
  }

  lemma GainEntryAlone(bs: Triple, vs: Variances, i: State)
    requires AllGood(bs) && AllPositive(vs) && vs[i].Some? && vs[Partner(i)].None?
    ensures InnovationVariance(bs, vs, i) > 0.0
    ensures GainEntry(bs, vs, i, i) == Variance(bs, i) / InnovationVariance(bs, vs, i)
    ensures GainEntry(bs, vs, Partner(i), i) == bs[BlockIndex(i)].cross / InnovationVariance(bs, vs, i)
  {
    PartnerIsInvolution(i, Partner(i));
  }

  /** Unmeasured states contribute no gain. */
  lemma GainEntryUnmeasured(bs: Triple, vs: Variances, i: State, j: State)
    requires AllGood(bs) && AllPositive(vs) && vs[j].None?
    ensures GainEntry(bs, vs, i, j) == 0.0
  {
    PartnerIsInvolution(i, j);
    hide OwnGain, PartnerGain;
  }

  /** Row `i` of `P H^T` against the inverse column of the row measuring `j`. */
  function GainProduct(bs: Triple, vs: Variances, i: State, j: State): real
    requires AllGood(bs) && AllPositive(vs) && vs[j].Some?
  {
    Entry(bs, i, j) * InverseEntry(bs, vs, j, j)
    + (if vs[Partner(j)].Some? then Entry(bs, i, Partner(j)) * InverseEntry(bs, vs, Partner(j), j) else 0.0)
  }

  lemma PairGain(p: real, c: real, q: real, v: real, w: real, d: real)
    requires d == Det(p, c, q, v, w) && d != 0.0
    ensures p * ((q + w) / d) + c * (-c / d) == OwnGain(p, c, q, v, w)
    ensures c * ((p + v) / d) + p * (-c / d) == PartnerGain(p, c, q, v, w)
  {
    var x, y := OwnGain(p, c, q, v, w), PartnerGain(p, c, q, v, w);
    assert x * d == p * (q + w) - c * c && y * d == c * v;
    hide Det, OwnGain, PartnerGain;
    OverDenominator(q + w, -c, p, c, d, x);
    OverDenominator(p + v, -c, c, p, d, y);
  }

  lemma GainOwnPaired(bs: Triple, vs: Variances, j: State)
    requires AllGood(bs) && AllPositive(vs) && vs[j].Some? && vs[Partner(j)].Some?
    ensures GainProduct(bs, vs, j, j) == GainEntry(bs, vs, j, j)
  {
    hide PairDet, InverseEntry, GainEntry, Det, OwnGain, PartnerGain, Variance, BlockIndex;
    PartnerIsInvolution(j, Partner(j));
    PairDetFacts(bs, vs, j);
    InversePaired(bs, vs, j);
    InversePaired(bs, vs, Partner(j));
    GainEntryPaired(bs, vs, j);
    PairDetIsDet(bs, vs, j);
    var (p, c, q) := (Variance(bs, j), bs[BlockIndex(j)].cross, Variance(bs, Partner(j)));
    assert Entry(bs, j, j) == p && Entry(bs, j, Partner(j)) == c;
    assert InnovationVariance(bs, vs, Partner(j)) == q + vs[Partner(j)].value;
    hide Entry, InnovationVariance, Partner;
    PairGain(p, c, q, vs[j].value, vs[Partner(j)].value, PairDet(bs, vs, j));
  }

  lemma PairDetIsDet(bs: Triple, vs: Variances, i: State)
    requires vs[i].Some? && vs[Partner(i)].Some?
    ensures PairDet(bs, vs, i)
         == Det(Variance(bs, i), bs[BlockIndex(i)].cross, Variance(bs, Partner(i)), vs[i].value, vs[Partner(i)].value)
  {
  }

  lemma GainPartnerPaired(bs: Triple, vs: Variances, i: State)
    requires AllGood(bs) && AllPositive(vs) && vs[i].Some? && vs[Partner(i)].Some?
    ensures GainProduct(bs, vs, i, Partner(i)) == GainEntry(bs, vs, i, Partner(i))
  {
    hide PairDet, InverseEntry, GainEntry, Det, OwnGain, PartnerGain, Variance, BlockIndex;
    var j := Partner(i);
    PartnerIsInvolution(i, j);
    PairDetFacts(bs, vs, i);
    InversePaired(bs, vs, i);
    InversePaired(bs, vs, j);
    GainEntryPaired(bs, vs, i);
    PairDetIsDet(bs, vs, i);
    var (p, c, q) := (Variance(bs, i), bs[BlockIndex(i)].cross, Variance(bs, j));
    assert Entry(bs, i, j) == c && Entry(bs, i, i) == p;
    assert InnovationVariance(bs, vs, i) == p + vs[i].value;
    assert Partner(j) == i && vs[Partner(j)].Some?;
    hide Entry, InnovationVariance, Partner;
    PairGain(p, c, q, vs[i].value, vs[j].value, PairDet(bs, vs, i));
  }

  lemma GainAlone(bs: Triple, vs: Variances, j: State)
    requires AllGood(bs) && AllPositive(vs) && vs[j].Some? && vs[Partner(j)].None?
    ensures GainProduct(bs, vs, j, j) == GainEntry(bs, vs, j, j)
    ensures GainProduct(bs, vs, Partner(j), j) == GainEntry(bs, vs, Partner(j), j)
  {
    hide GainEntry, BlockIndex, InverseEntry, Entry, InnovationVariance, Partner, Variance;
    PartnerIsInvolution(j, Partner(j));
    GainEntryAlone(bs, vs, j);
    AloneEntries(bs, vs, j);
    Reciprocal(InnovationVariance(bs, vs, j), Variance(bs, j));
    Reciprocal(InnovationVariance(bs, vs, j), bs[BlockIndex(j)].cross);
  }

  lemma AloneEntries(bs: Triple, vs: Variances, j: State)
    requires AllGood(bs) && AllPositive(vs) && vs[j].Some? && vs[Partner(j)].None?
    ensures InnovationVariance(bs, vs, j) > 0.0 && InverseEntry(bs, vs, j, j) == 1.0 / InnovationVariance(bs, vs, j)
    ensures Entry(bs, j, j) == Variance(bs, j) && Entry(bs, Partner(j), j) == bs[BlockIndex(j)].cross
  {
    PartnerIsInvolution(j, Partner(j));
  }

  lemma GainValue(bs: Triple, vs: Variances, i: State, j: State)
    requires AllGood(bs) && AllPositive(vs) && vs[j].Some?
    ensures GainProduct(bs, vs, i, j) == GainEntry(bs, vs, i, j)
  {
    PartnerIsInvolution(i, j);
    PartnerIsInvolution(i, Partner(j));
    if i == j {
      if vs[Partner(j)].Some? { GainOwnPaired(bs, vs, j); } else { GainAlone(bs, vs, j); }
    } else if i == Partner(j) {
      if vs[i].Some? { GainPartnerPaired(bs, vs, i); } else { GainAlone(bs, vs, j); }
    } else {
      hide InverseEntry, GainsOf;
      assert Entry(bs, i, j) == 0.0 && Entry(bs, i, Partner(j)) == 0.0;
    }
  }

  lemma TwoColumnTerms(x: Mat, i: int, l: Mat, a: int, m: nat, w: int, product: real)
    requires 0 <= a < m && w != a && -1 <= w < m
    requires forall k :: 0 <= k < m && k != a && k != w ==> At(l, k, a) == 0.0
    requires product == At(x, i, a) * At(l, a, a) + (if w >= 0 then At(x, i, w) * At(l, w, a) else 0.0)
    ensures Dot(x, i, l, a, m) == product
  {
    hide At, Dot;
    DotSparse(x, i, l, a, m, a, w);
  }

  lemma InverseColumn(rows: seq<State>, variances: seq<real>, bs: Triple, vs: Variances, a: int)
    requires Lists(rows, variances, vs) && AllPositive(vs) && AllGood(bs) && 0 <= a < |rows|
    ensures forall k :: 0 <= k < |rows| && k != a && k != Where(rows, Partner(rows[a])) ==>
              At(BlockInverse(bs, vs, rows), k, a) == 0.0
  {
    hide BlockInverse, InverseOwn, InversePartner;
    forall k: int | 0 <= k < |rows| && k != a && k != Where(rows, Partner(rows[a]))
      ensures At(BlockInverse(bs, vs, rows), k, a) == 0.0
    {
      PartnerIsInvolution(rows[k], rows[a]);
    }
  }

  /** The gain matrix, entry by entry. */
  lemma GainEntries(h: Mat, p: Mat, r: Mat, rows: seq<State>, variances: seq<real>, bs: Triple, vs: Variances,
                    i: State, a: int)
    requires Setting(h, p, r, rows, variances, bs, vs) && 0 <= a < |rows|
    ensures At(Gain(h, p, BlockInverse(bs, vs, rows), |rows|), i, a) == GainEntry(bs, vs, i, rows[a])
  {
    hide BlockInverse, Dot, At, InverseEntry, GainEntry, Partner, BlockIndex, Entry, Innovation;
    var (m, j) := (|rows|, rows[a]);
    var x, l, w := Mul(p, Transpose(h, m, 6), 6, 6, m), BlockInverse(bs, vs, rows), Where(rows, Partner(rows[a]));
    SelectColumn(h, rows, p, i, a);
    assert At(x, i, a) == Entry(bs, i, j);
    PartnerRow(rows, variances, vs, a);
    if w >= 0 {
      SelectColumn(h, rows, p, i, w);
      assert At(x, i, w) == Entry(bs, i, Partner(j));
      assert At(l, w, a) == InverseEntry(bs, vs, Partner(j), j);
    }
    assert At(l, a, a) == InverseEntry(bs, vs, j, j);
    InverseColumn(rows, variances, bs, vs, a);
    GainValue(bs, vs, i, j);
    hide Setting, Lists, IsBlockInverse;
    TwoColumnTerms(x, i, l, a, m, w, GainProduct(bs, vs, i, j));
  }

  // ----- The Joseph form -----

  ghost predicate IsGain(gain: Mat, rows: seq<State>, bs: Triple, vs: Variances)
    requires AllGood(bs) && AllPositive(vs)
  {
    Shape(gain, 6, |rows|)
    && forall i: State, a :: 0 <= a < |rows| ==> At(gain, i, a) == GainEntry(bs, vs, i, rows[a])
  }

  function Residual(gain: Mat, h: Mat, m: nat): Mat {
    Sub(Eye(6), Mul(gain, h, 6, m, 6), 6, 6)
  }

  function JosephMatrix(gain: Mat, h: Mat, p: Mat, r: Mat, m: nat): Mat {
    var a := Residual(gain, h, m);
    Add(Mul(Mul(a, p, 6, 6, 6), Transpose(a, 6, 6), 6, 6, 6),
        Mul(Mul(gain, r, 6, m, m), Transpose(gain, 6, m), 6, m, 6), 6, 6)
  }

  function CorrectBlocks(bs: Triple, vs: Variances): Triple
    requires AllGood(bs) && AllPositive(vs)
  {
    [Correction(bs[0], vs[EAST], vs[VEAST]), Correction(bs[1], vs[NORTH], vs[VNORTH]),
     Correction(bs[2], vs[ALT], vs[VRATE])]
  }

  /** Entry of `I - KH`. */
  function AEntry(bs: Triple, vs: Variances, i: State, j: State): real
    requires AllGood(bs) && AllPositive(vs)
  {
    (if i == j then 1.0 else 0.0) - GainEntry(bs, vs, i, j)
  }

  /** Entry of `(I - KH)P`. */
  function APEntry(bs: Triple, vs: Variances, i: State, j: State): real
    requires AllGood(bs) && AllPositive(vs)
  {
    AEntry(bs, vs, i, i) * Entry(bs, i, j) + AEntry(bs, vs, i, Partner(i)) * Entry(bs, Partner(i), j)
  }

  lemma ResidualEntries(gain: Mat, h: Mat, p: Mat, r: Mat, rows: seq<State>, variances: seq<real>, bs: Triple,
                        vs: Variances,
                        i: State, j: State)
    requires Setting(h, p, r, rows, variances, bs, vs) && IsGain(gain, rows, bs, vs)
    ensures At(Residual(gain, h, |rows|), i, j) == AEntry(bs, vs, i, j)
  {
    hide Dot, GainEntry;
    var w := Where(rows, j);
    DotSparse(gain, i, h, j, |rows|, w, w);
    if w < 0 { GainEntryUnmeasured(bs, vs, i, j); }
  }

  lemma ResidualRow(gain: Mat, h: Mat, p: Mat, r: Mat, rows: seq<State>, variances: seq<real>, bs: Triple,
                    vs: Variances, i: State)
    requires Setting(h, p, r, rows, variances, bs, vs) && IsGain(gain, rows, bs, vs)
    ensures forall k: State :: k != i && k != Partner(i) ==> At(Residual(gain, h, |rows|), i, k) == 0.0
  {
    hide Residual, GainsOf;
    forall k: State | k != i && k != Partner(i) ensures At(Residual(gain, h, |rows|), i, k) == 0.0 {
      ResidualEntries(gain, h, p, r, rows, variances, bs, vs, i, k);
    }
  }

  lemma APEntries(gain: Mat, h: Mat, p: Mat, r: Mat, rows: seq<State>, variances: seq<real>, bs: Triple, vs: Variances,
                  i: State, j: State)
    requires Setting(h, p, r, rows, variances, bs, vs) && IsGain(gain, rows, bs, vs)
    ensures At(Mul(Residual(gain, h, |rows|), p, 6, 6, 6), i, j) == APEntry(bs, vs, i, j)
  {
    hide Residual, GainEntry, Dot, AEntry, Entry;
    ResidualRow(gain, h, p, r, rows, variances, bs, vs, i);
    ResidualEntries(gain, h, p, r, rows, variances, bs, vs, i, i);
    ResidualEntries(gain, h, p, r, rows, variances, bs, vs, i, Partner(i));
    OwnBlockTerms(Residual(gain, h, |rows|), i, p, j, APEntry(bs, vs, i, j));
  }

  lemma APRow(gain: Mat, h: Mat, p: Mat, r: Mat, rows: seq<State>, variances: seq<real>, bs: Triple, vs: Variances,
              i: State)
    requires Setting(h, p, r, rows, variances, bs, vs) && IsGain(gain, rows, bs, vs)
    ensures forall k: State :: k != i && k != Partner(i) ==> At(Mul(Residual(gain, h, |rows|), p, 6, 6, 6), i, k) == 0.0
  {
    hide Residual, AEntry, Dot;
    forall k: State | k != i && k != Partner(i) ensures At(Mul(Residual(gain, h, |rows|), p, 6, 6, 6), i, k) == 0.0 {
      APEntries(gain, h, p, r, rows, variances, bs, vs, i, k);
      OffBlock(bs, i, k);
    }
  }

  lemma APATransposed(gain: Mat, h: Mat, p: Mat, r: Mat, rows: seq<State>, variances: seq<real>, bs: Triple,
                      vs: Variances,
                      i: State, j: State, product: real)
    requires Setting(h, p, r, rows, variances, bs, vs) && IsGain(gain, rows, bs, vs)
    requires product == APEntry(bs, vs, i, i) * AEntry(bs, vs, j, i)
                        + APEntry(bs, vs, i, Partner(i)) * AEntry(bs, vs, j, Partner(i))
    ensures var a := Residual(gain, h, |rows|);
      At(Mul(Mul(a, p, 6, 6, 6), Transpose(a, 6, 6), 6, 6, 6), i, j) == product
  {
    hide Residual, AEntry, APEntry, Dot;
    var a := Residual(gain, h, |rows|);
    APRow(gain, h, p, r, rows, variances, bs, vs, i);
    APEntries(gain, h, p, r, rows, variances, bs, vs, i, i);
    APEntries(gain, h, p, r, rows, variances, bs, vs, i, Partner(i));
    ResidualEntries(gain, h, p, r, rows, variances, bs, vs, j, i);
    ResidualEntries(gain, h, p, r, rows, variances, bs, vs, j, Partner(i));
    OwnBlockTerms(Mul(a, p, 6, 6, 6), i, Transpose(a, 6, 6), j, product);
  }

  lemma WeightedGain(gain: Mat, r: Mat, rows: seq<State>, variances: seq<real>, i: int, a: int)
    requires IsDiagonal(r, variances) && |variances| == |rows| && 0 <= a < |rows| && 0 <= i < 6
    ensures At(Mul(gain, r, 6, |rows|, |rows|), i, a) == At(gain, i, a) * variances[a]
  {
    hide Dot;
    DotSparse(gain, i, r, a, |rows|, a, a);
  }

  /** Terms of a product of two gain rows, at the rows measuring `i` and its partner. */
  lemma MeasuredTerms(x: Mat, i: int, y: Mat, j: int, n: nat, u: int, w: int, atU: real, atW: real)
    requires Only(x, i, y, j, n, u, w) && -1 <= u < n && -1 <= w < n && (u == w ==> u == -1)
    requires atU == if u >= 0 then At(x, i, u) * At(y, u, j) else 0.0
    requires atW == if w >= 0 then At(x, i, w) * At(y, w, j) else 0.0
    ensures Dot(x, i, y, j, n) == atU + atW
  {
    hide Dot, At, Only;
    DotSparse(x, i, y, j, n, u, w);
  }

  lemma NoiseTerm(gain: Mat, h: Mat, p: Mat, r: Mat, rows: seq<State>, variances: seq<real>, bs: Triple, vs: Variances,
                  i: State, k: State, j: State, term: real)
    requires Setting(h, p, r, rows, variances, bs, vs) && IsGain(gain, rows, bs, vs)
    requires term == GainEntry(bs, vs, i, k) * ValueOr0(vs[k]) * GainEntry(bs, vs, j, k)
    ensures var (gr, gt, a) := (Mul(gain, r, 6, |rows|, |rows|), Transpose(gain, 6, |rows|), Where(rows, k));
      term == if a >= 0 then At(gr, i, a) * At(gt, a, j) else 0.0
  {
    hide Dot, GainEntry;
    var a := Where(rows, k);
    if a >= 0 {
      WeightedGain(gain, r, rows, variances, i, a);
      assert ValueOr0(vs[k]) == variances[a];
    } else {
      GainEntryUnmeasured(bs, vs, i, k);
    }
  }

  /** `s` and `t` are the contributions of the measurements of `i` and of its partner. */
  lemma NoiseEntries(gain: Mat, h: Mat, p: Mat, r: Mat, rows: seq<State>, variances: seq<real>, bs: Triple,
                     vs: Variances,
                     i: State, j: State, s: real, t: real)
    requires Setting(h, p, r, rows, variances, bs, vs) && IsGain(gain, rows, bs, vs)
    requires s == GainEntry(bs, vs, i, i) * ValueOr0(vs[i]) * GainEntry(bs, vs, j, i)
    requires t == GainEntry(bs, vs, i, Partner(i)) * ValueOr0(vs[Partner(i)]) * GainEntry(bs, vs, j, Partner(i))
    ensures At(Mul(Mul(gain, r, 6, |rows|, |rows|), Transpose(gain, 6, |rows|), 6, |rows|, 6), i, j) == s + t
  {
    hide Dot, GainEntry, At, ValueOr0;
    var m := |rows|;
    var gr, gt := Mul(gain, r, 6, m, m), Transpose(gain, 6, m);
    NoiseTerm(gain, h, p, r, rows, variances, bs, vs, i, i, j, s);
    NoiseTerm(gain, h, p, r, rows, variances, bs, vs, i, Partner(i), j, t);
    NoiseRow(gain, h, p, r, rows, variances, bs, vs, i);
    hide Setting, IsGain, Partner;
    MeasuredTerms(gr, i, gt, j, m, Where(rows, i), Where(rows, Partner(i)), s, t);
  }

  lemma NoiseRow(gain: Mat, h: Mat, p: Mat, r: Mat, rows: seq<State>, variances: seq<real>, bs: Triple, vs: Variances,
                 i: State)
    requires Setting(h, p, r, rows, variances, bs, vs) && IsGain(gain, rows, bs, vs)
    ensures forall a :: 0 <= a < |rows| && a != Where(rows, i) && a != Where(rows, Partner(i)) ==>
              At(Mul(gain, r, 6, |rows|, |rows|), i, a) == 0.0
  {
    hide Dot, GainsOf;
    forall a | 0 <= a < |rows| && a != Where(rows, i) && a != Where(rows, Partner(i))
      ensures At(Mul(gain, r, 6, |rows|, |rows|), i, a) == 0.0
    {
      WeightedGain(gain, r, rows, variances, i, a);
      assert GainEntry(bs, vs, i, rows[a]) == 0.0;
    }
  }

  /** The double product and the noise term at one entry, once the row and columns are known. */
  function JosephTotal(own: real, other: real, aOwn: real, aOther: real, s: real, t: real): real {
    own * aOwn + other * aOther + (s + t)
  }

  /** The gains of the pair, named by whether `i` is its position-like state. */
  lemma GainsAt(bs: Triple, vs: Variances, i: State)
    requires AllGood(bs) && AllPositive(vs)
    ensures var (g, q) := (GainsOf(bs, vs, i), Partner(i));
      && GainsOf(bs, vs, q) == g
      && GainEntry(bs, vs, i, i) == (if IsPosition(i) then g.pp else g.rr)
      && GainEntry(bs, vs, i, q) == (if IsPosition(i) then g.pr else g.rp)
      && GainEntry(bs, vs, q, i) == (if IsPosition(i) then g.rp else g.pr)
      && GainEntry(bs, vs, q, q) == (if IsPosition(i) then g.rr else g.pp)
  {
    PartnerIsInvolution(i, Partner(i));
    hide GainsFor;
  }

  lemma ResidualAt(bs: Triple, vs: Variances, i: State)
    requires AllGood(bs) && AllPositive(vs)
    ensures var (g, q) := (GainsOf(bs, vs, i), Partner(i));
      && AEntry(bs, vs, i, i) == 1.0 - (if IsPosition(i) then g.pp else g.rr)
      && AEntry(bs, vs, i, q) == 0.0 - (if IsPosition(i) then g.pr else g.rp)
      && AEntry(bs, vs, q, i) == 0.0 - (if IsPosition(i) then g.rp else g.pr)
      && AEntry(bs, vs, q, q) == 1.0 - (if IsPosition(i) then g.rr else g.pp)
  {
    GainsAt(bs, vs, i);
    hide GainsOf, GainEntry;
  }

  /** Row `i` of `(I - KH)P` within its pair. */
  lemma RowAt(bs: Triple, vs: Variances, i: State)
    requires AllGood(bs) && AllPositive(vs)
    ensures var (b, g, own, other) :=
        (bs[BlockIndex(i)], GainsOf(bs, vs, i), APEntry(bs, vs, i, i), APEntry(bs, vs, i, Partner(i)));
      if IsPosition(i) then OwnsRow(own, other, g.pp, g.pr, b.pos, b.cross, b.rate)
      else OwnsRow(own, other, g.rr, g.rp, b.rate, b.cross, b.pos)
  {
    hide GainsOf, GainEntry, Entry, BlockIndex, AEntry, APEntry, Partner, OwnsRow;
    var (b, g) := (bs[BlockIndex(i)], GainsOf(bs, vs, i));
    ResidualAt(bs, vs, i);
    CovarianceAt(bs, i);
    if IsPosition(i) {
      RowFrom(bs, vs, i, g.pp, g.pr, b.pos, b.cross, b.rate);
    } else {
      RowFrom(bs, vs, i, g.rr, g.rp, b.rate, b.cross, b.pos);
    }
  }

  lemma RowFrom(bs: Triple, vs: Variances, i: State, k: real, l: real, p: real, c: real, r: real)
    requires AllGood(bs) && AllPositive(vs)
    requires AEntry(bs, vs, i, i) == 1.0 - k && AEntry(bs, vs, i, Partner(i)) == 0.0 - l
    requires Entry(bs, i, i) == p && Entry(bs, i, Partner(i)) == c
    requires Entry(bs, Partner(i), i) == c && Entry(bs, Partner(i), Partner(i)) == r
    ensures OwnsRow(APEntry(bs, vs, i, i), APEntry(bs, vs, i, Partner(i)), k, l, p, c, r)
  {
    hide AEntry, Entry, Partner, AllGood, AllPositive;
  }

  /** `own` and `other` are a row of gains `k`, `l` taken from the covariance row of a state with
      variance `p`, cross term `c` and partner variance `r`. */
  ghost predicate OwnsRow(own: real, other: real, k: real, l: real, p: real, c: real, r: real) {
    own == (1.0 - k) * p + (0.0 - l) * c && other == (1.0 - k) * c + (0.0 - l) * r
  }

  lemma CovarianceAt(bs: Triple, i: State)
    ensures var b := bs[BlockIndex(i)];
      && Entry(bs, i, Partner(i)) == b.cross && Entry(bs, Partner(i), i) == b.cross
      && Entry(bs, i, i) == (if IsPosition(i) then b.pos else b.rate)
      && Entry(bs, Partner(i), Partner(i)) == (if IsPosition(i) then b.rate else b.pos)
  {
    PartnerIsInvolution(i, Partner(i));
  }

  lemma CorrectedAt(bs: Triple, vs: Variances, i: State)
    requires AllGood(bs) && AllPositive(vs)
    ensures CorrectBlocks(bs, vs)[BlockIndex(i)] == Corrected(bs[BlockIndex(i)], GainsOf(bs, vs, i))
    ensures SolvesNormal(bs[BlockIndex(i)], vs[PositionOf(i)], vs[Partner(PositionOf(i))], GainsOf(bs, vs, i))
  {
    GainsSolve(bs[BlockIndex(i)], vs[PositionOf(i)], vs[Partner(PositionOf(i))]);
    hide GainsFor, Corrected;
  }

  /** Own-block entries of the Joseph form are the corrected block's. */
  lemma JosephOwn(bs: Triple, vs: Variances, i: State, s: real, t: real)
    requires AllGood(bs) && AllPositive(vs)
    requires s == GainEntry(bs, vs, i, i) * ValueOr0(vs[i]) * GainEntry(bs, vs, i, i)
    requires t == GainEntry(bs, vs, i, Partner(i)) * ValueOr0(vs[Partner(i)]) * GainEntry(bs, vs, i, Partner(i))
    ensures JosephTotal(APEntry(bs, vs, i, i), APEntry(bs, vs, i, Partner(i)),
                        AEntry(bs, vs, i, i), AEntry(bs, vs, i, Partner(i)), s, t)
         == Entry(CorrectBlocks(bs, vs), i, i)
  {
    hide CorrectBlocks, GainEntry, GainsOf, Entry, SolvesNormal, Corrected, APEntry, OwnsRow, JosephTotal, JosephPos,
      JosephRate, ValueOr0;
    PartnerIsInvolution(i, Partner(i));
    hide AEntry, Partner;
    GainsAt(bs, vs, i);
    ResidualAt(bs, vs, i);
    RowAt(bs, vs, i);
    CovarianceAt(CorrectBlocks(bs, vs), i);
    CorrectedAt(bs, vs, i);
    var b, g := bs[BlockIndex(i)], GainsOf(bs, vs, i);
    var (vp, vr) := (vs[PositionOf(i)], vs[Partner(PositionOf(i))]);
    JosephIsCorrected(b, vp, vr, g);
    if IsPosition(i) {
      JosephPosTotal(b, g, ValueOr0(vp), ValueOr0(vr), APEntry(bs, vs, i, i), APEntry(bs, vs, i, Partner(i)), s, t);
    } else {
      JosephRateTotal(b, g, ValueOr0(vp), ValueOr0(vr), APEntry(bs, vs, i, i), APEntry(bs, vs, i, Partner(i)), s, t);
    }
  }

  lemma JosephPosTotal(b: Block, g: Gains, v: real, w: real, own: real, other: real, s: real, t: real)
    requires OwnsRow(own, other, g.pp, g.pr, b.pos, b.cross, b.rate)
    requires s == g.pp * v * g.pp && t == g.pr * w * g.pr
    ensures JosephTotal(own, other, 1.0 - g.pp, 0.0 - g.pr, s, t) == JosephPos(b, g, v, w)
  {
    assert own == b.pos - g.pp * b.pos - g.pr * b.cross;
    assert other == b.cross - g.pp * b.cross - g.pr * b.rate;
  }

  lemma JosephRateTotal(b: Block, g: Gains, v: real, w: real, own: real, other: real, s: real, t: real)
    requires OwnsRow(own, other, g.rr, g.rp, b.rate, b.cross, b.pos)
    requires s == g.rr * w * g.rr && t == g.rp * v * g.rp
    ensures JosephTotal(own, other, 1.0 - g.rr, 0.0 - g.rp, s, t) == JosephRate(b, g, v, w)
  {
    assert own == b.rate - g.rp * b.cross - g.rr * b.rate;
    assert other == b.cross - g.rp * b.pos - g.rr * b.cross;
  }

  lemma JosephPosRateTotal(b: Block, g: Gains, v: real, w: real, own: real, other: real, s: real, t: real)
    requires OwnsRow(own, other, g.pp, g.pr, b.pos, b.cross, b.rate)
    requires s == g.pp * v * g.rp && t == g.pr * w * g.rr
    ensures JosephTotal(own, other, 0.0 - g.rp, 1.0 - g.rr, s, t) == JosephPosRate(b, g, v, w)
  {
    assert own == b.pos - g.pp * b.pos - g.pr * b.cross;
    assert other == b.cross - g.pp * b.cross - g.pr * b.rate;
  }

  lemma JosephRatePosTotal(b: Block, g: Gains, v: real, w: real, own: real, other: real, s: real, t: real)
    requires OwnsRow(own, other, g.rr, g.rp, b.rate, b.cross, b.pos)
    requires s == g.rr * w * g.pr && t == g.rp * v * g.pp
    ensures JosephTotal(own, other, 0.0 - g.pr, 1.0 - g.pp, s, t) == JosephRatePos(b, g, v, w)
  {
    assert own == b.rate - g.rp * b.cross - g.rr * b.rate;
    assert other == b.cross - g.rp * b.pos - g.rr * b.cross;
  }

  /** Cross entries of the Joseph form are the corrected block's. */
  lemma JosephPartner(bs: Triple, vs: Variances, i: State, s: real, t: real)
    requires AllGood(bs) && AllPositive(vs)
    requires s == GainEntry(bs, vs, i, i) * ValueOr0(vs[i]) * GainEntry(bs, vs, Partner(i), i)
    requires t == GainEntry(bs, vs, i, Partner(i)) * ValueOr0(vs[Partner(i)])
                  * GainEntry(bs, vs, Partner(i), Partner(i))
    ensures JosephTotal(APEntry(bs, vs, i, i), APEntry(bs, vs, i, Partner(i)),
                        AEntry(bs, vs, Partner(i), i), AEntry(bs, vs, Partner(i), Partner(i)), s, t)
         == Entry(CorrectBlocks(bs, vs), i, Partner(i))
  {
    hide CorrectBlocks, GainEntry, GainsOf, Entry, SolvesNormal, Corrected, APEntry, OwnsRow, JosephTotal,
      JosephPosRate, JosephRatePos, ValueOr0;
    PartnerIsInvolution(i, Partner(i));
    hide AEntry, Partner;
    GainsAt(bs, vs, i);
    ResidualAt(bs, vs, i);
    RowAt(bs, vs, i);
    CovarianceAt(CorrectBlocks(bs, vs), i);
    CorrectedAt(bs, vs, i);
    var b, g := bs[BlockIndex(i)], GainsOf(bs, vs, i);
    var (vp, vr) := (vs[PositionOf(i)], vs[Partner(PositionOf(i))]);
    JosephIsCorrected(b, vp, vr, g);
    if IsPosition(i) {
      JosephPosRateTotal(b, g, ValueOr0(vp), ValueOr0(vr), APEntry(bs, vs, i, i), APEntry(bs, vs, i, Partner(i)), s, t);
    } else {
      JosephRatePosTotal(b, g, ValueOr0(vp), ValueOr0(vr), APEntry(bs, vs, i, i), APEntry(bs, vs, i, Partner(i)), s, t);
    }
  }

  lemma JosephOff(bs: Triple, vs: Variances, i: State, j: State, own: real, other: real)
    requires AllGood(bs) && AllPositive(vs) && j != i && j != Partner(i)
    ensures AEntry(bs, vs, j, i) == 0.0 && AEntry(bs, vs, j, Partner(i)) == 0.0
    ensures GainEntry(bs, vs, j, i) == 0.0 && GainEntry(bs, vs, j, Partner(i)) == 0.0
    ensures Entry(CorrectBlocks(bs, vs), i, j) == 0.0
  {
    PartnerIsInvolution(i, j);
    PartnerIsInvolution(Partner(i), j);
    hide GainsOf, CorrectBlocks;
  }

  lemma JosephOffTotal(own: real, other: real, x: real, y: real)
    ensures JosephTotal(own, other, 0.0, 0.0, x * 0.0, y * 0.0) == 0.0
  {
  }

  lemma JosephValue(bs: Triple, vs: Variances, i: State, j: State, s: real, t: real)
    requires AllGood(bs) && AllPositive(vs)
    requires s == GainEntry(bs, vs, i, i) * ValueOr0(vs[i]) * GainEntry(bs, vs, j, i)
    requires t == GainEntry(bs, vs, i, Partner(i)) * ValueOr0(vs[Partner(i)]) * GainEntry(bs, vs, j, Partner(i))
    ensures JosephTotal(APEntry(bs, vs, i, i), APEntry(bs, vs, i, Partner(i)),
                        AEntry(bs, vs, j, i), AEntry(bs, vs, j, Partner(i)), s, t)
         == Entry(CorrectBlocks(bs, vs), i, j)
  {
    hide JosephTotal, APEntry, AEntry, GainEntry, Entry, CorrectBlocks, ValueOr0;
    if j == i {
      JosephOwn(bs, vs, i, s, t);
    } else if j == Partner(i) {
      JosephPartner(bs, vs, i, s, t);
    } else {
      var (own, other) := (APEntry(bs, vs, i, i), APEntry(bs, vs, i, Partner(i)));
      JosephOff(bs, vs, i, j, own, other);
      JosephOffTotal(own, other, GainEntry(bs, vs, i, i) * ValueOr0(vs[i]),
                     GainEntry(bs, vs, i, Partner(i)) * ValueOr0(vs[Partner(i)]));
    }
  }

  /** Correcting the matrix in Joseph form is correcting the blocks. */
  lemma CorrectionDecouples(gain: Mat, h: Mat, p: Mat, r: Mat, rows: seq<State>, variances: seq<real>, bs: Triple,
                            vs: Variances)
    requires Setting(h, p, r, rows, variances, bs, vs) && IsGain(gain, rows, bs, vs)
    ensures Represents(JosephMatrix(gain, h, p, r, |rows|), CorrectBlocks(bs, vs))
  {
    forall i: State, j: State
      ensures At(JosephMatrix(gain, h, p, r, |rows|), i, j) == Entry(CorrectBlocks(bs, vs), i, j)
    {
      JosephEntryIsCorrected(gain, h, p, r, rows, variances, bs, vs, i, j);
    }
  }

  lemma JosephEntryIsCorrected(gain: Mat, h: Mat, p: Mat, r: Mat, rows: seq<State>, variances: seq<real>,
                               bs: Triple, vs: Variances, i: State, j: State)
    requires Setting(h, p, r, rows, variances, bs, vs) && IsGain(gain, rows, bs, vs)
    ensures At(JosephMatrix(gain, h, p, r, |rows|), i, j) == Entry(CorrectBlocks(bs, vs), i, j)
  {
    hide Dot, Residual, APEntry, AEntry, GainEntry, Entry, CorrectBlocks, ValueOr0;
    var q := Partner(i);
    var s, t :| s == GainEntry(bs, vs, i, i) * ValueOr0(vs[i]) * GainEntry(bs, vs, j, i)
             && t == GainEntry(bs, vs, i, q) * ValueOr0(vs[q]) * GainEntry(bs, vs, j, q);
    var product :|
      product == APEntry(bs, vs, i, i) * AEntry(bs, vs, j, i) + APEntry(bs, vs, i, q) * AEntry(bs, vs, j, q);
    APATransposed(gain, h, p, r, rows, variances, bs, vs, i, j, product);
    NoiseEntries(gain, h, p, r, rows, variances, bs, vs, i, j, s, t);
    JosephValue(bs, vs, i, j, s, t);
    hide Setting, IsGain;
  }

  // ----- The textbook form -----

  /** Within its pair, a row of `(I - KH)P` is the corrected block's. */
  lemma TextbookOwn(bs: Triple, vs: Variances, i: State)
    requires AllGood(bs) && AllPositive(vs)
    ensures APEntry(bs, vs, i, i) == Entry(CorrectBlocks(bs, vs), i, i)
    ensures APEntry(bs, vs, i, Partner(i)) == Entry(CorrectBlocks(bs, vs), i, Partner(i))
  {
    hide CorrectBlocks, GainEntry, GainsOf, Entry, SolvesNormal, Corrected, APEntry, OwnsRow, AEntry, Partner;
    var b, g := bs[BlockIndex(i)], GainsOf(bs, vs, i);
    RowAt(bs, vs, i);
    CovarianceAt(CorrectBlocks(bs, vs), i);
    CorrectedAt(bs, vs, i);
    CrossTermsAgree(b, vs[PositionOf(i)], vs[Partner(PositionOf(i))], g);
    if IsPosition(i) {
      PositionRowIs(b, g, APEntry(bs, vs, i, i), APEntry(bs, vs, i, Partner(i)));
    } else {
      RateRowIs(b, g, APEntry(bs, vs, i, i), APEntry(bs, vs, i, Partner(i)));
    }
  }

  lemma PositionRowIs(b: Block, g: Gains, own: real, other: real)
    requires OwnsRow(own, other, g.pp, g.pr, b.pos, b.cross, b.rate)
    ensures own == Corrected(b, g).pos && other == Corrected(b, g).cross
  {
  }

  lemma RateRowIs(b: Block, g: Gains, own: real, other: real)
    requires OwnsRow(own, other, g.rr, g.rp, b.rate, b.cross, b.pos)
    requires g.pp * b.cross + g.pr * b.rate == g.rp * b.pos + g.rr * b.cross
    ensures own == Corrected(b, g).rate && other == Corrected(b, g).cross
  {
  }

  lemma TextbookRow(bs: Triple, vs: Variances, i: State, j: State)
    requires AllGood(bs) && AllPositive(vs)
    ensures APEntry(bs, vs, i, j) == Entry(CorrectBlocks(bs, vs), i, j)
  {
    hide AEntry, CorrectBlocks, Partner;
    TextbookOwn(bs, vs, i);
    if j != i && j != Partner(i) {
      OffBlock(bs, i, j);
      OffBlock(CorrectBlocks(bs, vs), i, j);
    }
  }

  /** For the gain actually used, the Joseph form and the textbook form `(I - KH)P` are the same matrix. */
  lemma JosephIsTextbook(gain: Mat, h: Mat, p: Mat, r: Mat, rows: seq<State>, variances: seq<real>, bs: Triple,
                         vs: Variances)
    requires Setting(h, p, r, rows, variances, bs, vs) && IsGain(gain, rows, bs, vs)
    ensures JosephMatrix(gain, h, p, r, |rows|) == Mul(Residual(gain, h, |rows|), p, 6, 6, 6)
  {
    hide Residual, Dot, Setting, IsGain, APEntry, Entry, CorrectBlocks;
    var (joseph, textbook) := (JosephMatrix(gain, h, p, r, |rows|), Mul(Residual(gain, h, |rows|), p, 6, 6, 6));
    SettingIsGood(h, p, r, rows, variances, bs, vs);
    forall i, j | 0 <= i < 6 && 0 <= j < 6 ensures At(joseph, i, j) == At(textbook, i, j) {
      JosephEntryIsCorrected(gain, h, p, r, rows, variances, bs, vs, i, j);
      APEntries(gain, h, p, r, rows, variances, bs, vs, i, j);
      TextbookRow(bs, vs, i, j);
    }
    SameEntries(joseph, textbook, 6, 6);
  }

  lemma SettingIsGood(h: Mat, p: Mat, r: Mat, rows: seq<State>, variances: seq<real>, bs: Triple, vs: Variances)
    requires Setting(h, p, r, rows, variances, bs, vs)
    ensures AllGood(bs) && AllPositive(vs)
  {
  }
}
