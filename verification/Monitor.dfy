/** The conformance monitor (monitor.py): each update is predicted ahead, and the prediction compared
    with the update that arrives when it falls due. */
module Monitor {
  import opened Prelude
  import opened Estimator

  type Position = (real, real)

  datatype Prediction = Prediction(at: Position, fromModel: bool, version: string)

  /** A prediction waiting for the moment it can be checked. */
  datatype Pending = Pending(
    validAt: real,
    predictedAt: real,
    at: Position,
    baseline: Position,
    fromModel: bool,
    version: string)

  datatype NonConformance = NonConformance(
    trackId: Id,
    callsign: Option<string>,
    predictedAt: real,
    horizonS: real,
    errorNm: real,
    baselineErrorNm: real,
    thresholdNm: real,
    version: string,
    usedModel: bool)

  /** The horizon, the thresholds and their calibration, and the functions the monitor is given: the
      predictor, dead reckoning, and the distance from a point to a reported position. */
  datatype Settings = Settings(
    horizonS: real,
    thresholdFactor: real,
    minimumThresholdNm: real,
    modelTypicalNm: Option<real>,
    physicsTypicalNm: Option<real>,
    predict: seq<TrackUpdate> -> Prediction,
    deadReckon: (TrackUpdate, real) -> Position,
    distance: (Position, TrackUpdate) -> real)

  const MATCH_TOLERANCE_S := 3.0
  const WINDOW: nat := 20
  const PENDING_LIMIT: nat := 256

  /** The deviation beyond which a prediction counts as missed. */
  function ThresholdFor(s: Settings, usedModel: bool): (r: real)
    ensures r >= s.minimumThresholdNm
  {
    var typical := if usedModel then s.modelTypicalNm else s.physicsTypicalNm;
    if typical.None? then s.minimumThresholdNm else Max(s.minimumThresholdNm, s.thresholdFactor * typical.value)
  }

  /** A queue of bounded length: the oldest entry falls out. */
  function Append<T>(q: seq<T>, x: T, limit: nat): seq<T> {
    var longer := q + [x];
    if |longer| > limit then longer[|longer| - limit..] else longer
  }

  function MakePrediction(s: Settings, window: seq<TrackUpdate>, u: TrackUpdate): Pending {
    var p := s.predict(window);
    Pending(u.updatedAt + s.horizonS, u.updatedAt, p.at, s.deadReckon(u, s.horizonS), p.fromModel, p.version)
  }

  predicate Due(p: Pending, t: real) {
    t >= p.validAt - MATCH_TOLERANCE_S
  }

  predicate InTime(p: Pending, t: real) {
    t <= p.validAt + MATCH_TOLERANCE_S
  }

  function ErrorOf(s: Settings, p: Pending, u: TrackUpdate): real {
    s.distance(p.at, u)
  }

  function FindingOf(s: Settings, p: Pending, u: TrackUpdate): NonConformance {
    NonConformance(u.aircraft, u.callsign, p.predictedAt, s.horizonS, ErrorOf(s, p, u), s.distance(p.baseline, u),
                   ThresholdFor(s, p.fromModel), p.version, p.fromModel)
  }

  /** The comparison found a deviation worth reporting. */
  predicate Deviates(s: Settings, p: Pending, u: TrackUpdate) {
    InTime(p, u.updatedAt) && ErrorOf(s, p, u) > ThresholdFor(s, p.fromModel)
  }

  /** The finding after considering one more prediction: a larger error replaces a smaller. */
  function Better(s: Settings, best: Option<NonConformance>, p: Pending, u: TrackUpdate): Option<NonConformance> {
    if Deviates(s, p, u) && (best.None? || ErrorOf(s, p, u) > best.value.errorNm) then Some(FindingOf(s, p, u))
      else best
  }

  /** What is left in the queue once every due prediction at its head is taken. */
  function Undue(q: seq<Pending>, t: real): seq<Pending> {
    if q == [] || !Due(q[0], t) then q else Undue(q[1..], t)
  }

  function Consider(s: Settings, q: seq<Pending>, u: TrackUpdate, best: Option<NonConformance>): Option<NonConformance>
    decreases |q|
  {
    if q == [] || !Due(q[0], u.updatedAt) then best else Consider(s, q[1..], u, Better(s, best, q[0], u))
  }

  function Held<V>(m: map<Id, seq<V>>, k: Id): seq<V> {
    if k in m then m[k] else []
  }

  class ConformanceMonitor {
    const settings: Settings
    var windows: map<Id, seq<TrackUpdate>>
    var pending: map<Id, seq<Pending>>

    constructor (settings: Settings)
      ensures this.settings == settings && windows == map[] && pending == map[]
    {
      this.settings, windows, pending := settings, map[], map[];
    }

    /** Fold in an update, check what has matured, and predict again. */
    method Observe(u: TrackUpdate) returns (finding: Option<NonConformance>)
      modifies this
      ensures finding == Consider(settings, Held(old(pending), u.aircraft), u, None)
      ensures windows == old(windows)[u.aircraft := Append(Held(old(windows), u.aircraft), u, WINDOW)]
      ensures pending == old(pending)[u.aircraft :=
        Append(Undue(Held(old(pending), u.aircraft), u.updatedAt), MakePrediction(settings, windows[u.aircraft], u),
               PENDING_LIMIT)]
    {
      windows := windows[u.aircraft := Append(Held(windows, u.aircraft), u, WINDOW)];
      finding := CheckMatured(u);
      var queue := Held(pending, u.aircraft);
      pending := pending[u.aircraft := Append(queue, MakePrediction(settings, windows[u.aircraft], u), PENDING_LIMIT)];
    }

    method CheckMatured(u: TrackUpdate) returns (finding: Option<NonConformance>)
      modifies this`pending
      ensures finding == Consider(settings, Held(old(pending), u.aircraft), u, None)
      ensures Held(pending, u.aircraft) == Undue(Held(old(pending), u.aircraft), u.updatedAt)
      ensures pending.Keys == old(pending).Keys
      ensures forall k :: k in pending && k != u.aircraft ==> pending[k] == old(pending)[k]
    {
      finding := None;
      if u.aircraft !in pending { return; }
      ghost var whole := pending[u.aircraft];
      while pending[u.aircraft] != []
        invariant pending.Keys == old(pending).Keys
        invariant forall k :: k in pending && k != u.aircraft ==> pending[k] == old(pending)[k]
        invariant Consider(settings, pending[u.aircraft], u, finding) == Consider(settings, whole, u, None)
        invariant Undue(pending[u.aircraft], u.updatedAt) == Undue(whole, u.updatedAt)
        decreases |pending[u.aircraft]|
      {
        var candidate := pending[u.aircraft][0];
        if !Due(candidate, u.updatedAt) { break; }
        pending := pending[u.aircraft := pending[u.aircraft][1..]];
        if !InTime(candidate, u.updatedAt) { continue; }
        finding := Better(settings, finding, candidate, u);
      }
    }

    /** Drop everything held about tracks that no longer exist. */
    method Forget(trackIds: set<Id>)
      modifies this
      ensures windows == old(windows) - trackIds && pending == old(pending) - trackIds
    {
      windows, pending := windows - trackIds, pending - trackIds;
    }
  }

  // ----- One track's updates, from the first -----

  function WindowAfter(us: seq<TrackUpdate>): seq<TrackUpdate> {
    if us == [] then [] else Append(WindowAfter(us[..|us| - 1]), us[|us| - 1], WINDOW)
  }

  /** The prediction made on update `i`. */
  function PredictionAt(s: Settings, us: seq<TrackUpdate>, i: nat): Pending
    requires i < |us|
  {
    MakePrediction(s, WindowAfter(us[..i + 1]), us[i])
  }

  function QueueAfter(s: Settings, us: seq<TrackUpdate>): seq<Pending> {
    if us == [] then []
    else
      var n := |us| - 1;
      Append(Undue(QueueAfter(s, us[..n]), us[n].updatedAt), PredictionAt(s, us, n), PENDING_LIMIT)
  }

  /** What the monitor reports on update `n`. */
  function FindingAt(s: Settings, us: seq<TrackUpdate>, n: nat): Option<NonConformance>
    requires n < |us|
  {
    Consider(s, QueueAfter(s, us[..n]), us[n], None)
  }

  predicate InOrder(us: seq<TrackUpdate>) {
    forall i, j :: 0 <= i <= j < |us| ==> us[i].updatedAt <= us[j].updatedAt
  }

  /** Observing the next update takes the track's window, queue and finding to those of the longer
      sequence: the object's methods compute these functions. */
  lemma ObservingExtends(s: Settings, us: seq<TrackUpdate>, u: TrackUpdate)
    ensures var (longer, window) := (us + [u], Append(WindowAfter(us), u, WINDOW));
      && WindowAfter(longer) == window
      && QueueAfter(s, longer) == Append(Undue(QueueAfter(s, us), u.updatedAt), MakePrediction(s, window, u),
                                         PENDING_LIMIT)
      && FindingAt(s, longer, |us|) == Consider(s, QueueAfter(s, us), u, None)
  {
    var longer := us + [u];
    assert longer[..|us|] == us && longer[..|us| + 1] == longer;
    hide Undue, Consider, Append, MakePrediction;
  }

  // ----- What those findings mean -----

  predicate DueAt(s: Settings, us: seq<TrackUpdate>, i: nat, m: nat)
    requires i < |us| && m < |us|
  {
    us[m].updatedAt >= us[i].updatedAt + s.horizonS - 3.0
  }

  /** Prediction `i` is still waiting when update `n` arrives: no update since has reached its time, and
      it has not been pushed out by the next 256. */
  predicate Waiting(s: Settings, us: seq<TrackUpdate>, i: nat, n: nat)
    requires n <= |us|
  {
    i < n && n - i <= PENDING_LIMIT && forall m :: i < m < n ==> !DueAt(s, us, i, m)
  }

  /** Update `n` is the one prediction `i` is compared with: the first to reach its time less the
      tolerance, and no later than its time plus the tolerance. */
  predicate Matched(s: Settings, us: seq<TrackUpdate>, i: nat, n: nat)
    requires n < |us|
  {
    && Waiting(s, us, i, n) && DueAt(s, us, i, n)
    && us[n].updatedAt <= us[i].updatedAt + s.horizonS + 3.0
  }

  /** Predictions `start` onwards, in order. */
  function From(s: Settings, us: seq<TrackUpdate>, start: nat): (q: seq<Pending>)
    requires start <= |us|
    ensures |q| == |us| - start && forall k :: 0 <= k < |q| ==> q[k] == PredictionAt(s, us, start + k)
  {
    seq(|us| - start, k requires 0 <= k < |us| - start => PredictionAt(s, us, start + k))
  }

  lemma PredictionIsStable(s: Settings, us: seq<TrackUpdate>, n: nat, i: nat)
    requires i < n <= |us|
    ensures PredictionAt(s, us[..n], i) == PredictionAt(s, us, i)
  {
    assert us[..n][..i + 1] == us[..i + 1];
  }

  // ----- For updates in any order -----

  lemma {:induction false} UndueIsDrop(q: seq<Pending>, t: real)
    ensures |Undue(q, t)| <= |q| && Undue(q, t) == q[|q| - |Undue(q, t)|..]
  {
    if q != [] && Due(q[0], t) {
      UndueIsDrop(q[1..], t);
      assert q[1..][|q| - 1 - |Undue(q, t)|..] == q[|q| - |Undue(q, t)|..];
    }
  }

  /** Whatever the order of the updates, the queue is the latest of the predictions made. */
  lemma {:induction false} QueueIsLatest(s: Settings, us: seq<TrackUpdate>)
    ensures var q := QueueAfter(s, us); |q| <= |us| && q == From(s, us, |us| - |q|)
  {
    hide PredictionAt, Undue;
    if us != [] {
      var n := |us| - 1;
      var q := QueueAfter(s, us[..n]);
      QueueIsLatest(s, us[..n]);
      UndueIsDrop(q, us[n].updatedAt);
      var rest := n - |Undue(q, us[n].updatedAt)|;
      assert Undue(q, us[n].updatedAt) == From(s, us[..n], rest);
      QueueStep(s, us, rest);
    }
  }

  /** Update `n` takes prediction `i` off the queue. */
  predicate TakenAt(s: Settings, us: seq<TrackUpdate>, i: nat, n: nat) {
    n < |us|
    && var q := QueueAfter(s, us[..n]);
    n - |q| <= i < n - |Undue(q, us[n].updatedAt)|
  }

  /** The oldest prediction in the queue is never older than before, and after an update it is none of
      those the update took. */
  lemma {:induction false} QueueMovesOn(s: Settings, us: seq<TrackUpdate>, n: nat, m: nat)
    requires n < m <= |us|
    ensures n - |Undue(QueueAfter(s, us[..n]), us[n].updatedAt)| <= m - |QueueAfter(s, us[..m])|
  {
    hide PredictionAt, Undue;
    assert us[..m][..m - 1] == us[..m - 1];
    var q := QueueAfter(s, us[..m - 1]);
    QueueUnfolds(s, us[..m]);
    UndueIsDrop(q, us[m - 1].updatedAt);
    if n < m - 1 { QueueMovesOn(s, us, n, m - 1); }
  }

  /** For updates in any order, what an update takes off the queue are predictions made before it, and no
      prediction is ever taken twice. */
  lemma TakenAtMostOnce(s: Settings, us: seq<TrackUpdate>, i: nat, n: nat, n': nat)
    requires TakenAt(s, us, i, n)
    ensures i < n && var q := QueueAfter(s, us[..n]); i - (n - |q|) < |q| && q[i - (n - |q|)] == PredictionAt(s, us, i)
    ensures TakenAt(s, us, i, n') ==> n' == n
  {
    hide PredictionAt, Undue, QueueAfter;
    QueueIsLatest(s, us[..n]);
    PredictionIsStable(s, us, n, i);
    if n' < |us| {
      if n < n' { QueueMovesOn(s, us, n, n'); }
      if n' < n { QueueMovesOn(s, us, n', n); }
    }
  }

  // ----- For updates in order -----

  /** Taking the due predictions off an ordered queue leaves those from the first that is not due. */
  lemma {:induction false} UndueIsSuffix(s: Settings, us: seq<TrackUpdate>, start: nat, t: real) returns (rest: nat)
    requires InOrder(us) && start <= |us|
    ensures start <= rest <= |us| && Undue(From(s, us, start), t) == From(s, us, rest)
    ensures forall i :: start <= i < |us| ==> (i >= rest <==> t < us[i].updatedAt + s.horizonS - 3.0)
    decreases |us| - start
  {
    rest := start;
    if start < |us| && Due(From(s, us, start)[0], t) {
      assert From(s, us, start)[1..] == From(s, us, start + 1);
      rest := UndueIsSuffix(s, us, start + 1, t);
    }
  }

  /** The queue holds exactly the predictions still waiting. */
  lemma {:induction false} QueueIsWaiting(s: Settings, us: seq<TrackUpdate>) returns (start: nat)
    requires InOrder(us)
    ensures start <= |us| && QueueAfter(s, us) == From(s, us, start)
    ensures forall i :: 0 <= i < |us| ==> (i >= start <==> Waiting(s, us, i, |us|))
  {
    hide Waiting, Undue, PredictionAt, DueAt;
    start := 0;
    if us == [] { return; }
    var n := |us| - 1;
    var first := QueueIsWaiting(s, us[..n]);
    var rest := UndueIsSuffix(s, us[..n], first, us[n].updatedAt);
    start := if |us| - rest > PENDING_LIMIT then |us| - PENDING_LIMIT else rest;
    QueueStep(s, us, rest);
    WaitingStep(s, us, n, us[..n], first, rest, start);
  }

  lemma QueueStep(s: Settings, us: seq<TrackUpdate>, rest: nat)
    requires |us| > 0 && rest < |us|
    requires Undue(QueueAfter(s, us[..|us| - 1]), us[|us| - 1].updatedAt) == From(s, us[..|us| - 1], rest)
    ensures QueueAfter(s, us) == From(s, us, if |us| - rest > PENDING_LIMIT then |us| - PENDING_LIMIT else rest)
  {
    hide Undue, PredictionAt, From, QueueAfter, Append;
    QueueIsCut(s, us, rest);
    CutIsFrom(s, us, rest, PENDING_LIMIT);
  }

  lemma CutIsFrom(s: Settings, us: seq<TrackUpdate>, rest: nat, limit: nat)
    requires rest <= |us|
    ensures var longer := From(s, us, rest);
      (if |longer| > limit then longer[|longer| - limit..] else longer)
      == From(s, us, if |us| - rest > limit then |us| - limit else rest)
  {
    hide From;
    FromSize(s, us, rest);
    if |us| - rest > limit {
      FromDrops(s, us, rest, |us| - limit);
      assert |From(s, us, rest)| - limit == (|us| - limit) - rest;
    }
  }

  lemma QueueIsCut(s: Settings, us: seq<TrackUpdate>, rest: nat)
    requires |us| > 0 && rest < |us|
    requires Undue(QueueAfter(s, us[..|us| - 1]), us[|us| - 1].updatedAt) == From(s, us[..|us| - 1], rest)
    ensures var longer := From(s, us, rest);
      QueueAfter(s, us) == if |longer| > PENDING_LIMIT then longer[|longer| - PENDING_LIMIT..] else longer
  {
    hide Undue, PredictionAt, From, QueueAfter, Append;
    QueueUnfolds(s, us);
    FromGrows(s, us, rest);
    AppendIs(From(s, us[..|us| - 1], rest), PredictionAt(s, us, |us| - 1), From(s, us, rest), PENDING_LIMIT);
  }

  lemma AppendIs<T>(q: seq<T>, x: T, longer: seq<T>, limit: nat)
    requires longer == q + [x]
    ensures Append(q, x, limit) == if |longer| > limit then longer[|longer| - limit..] else longer
  {
  }

  lemma FromSize(s: Settings, us: seq<TrackUpdate>, start: nat)
    requires start <= |us|
    ensures |From(s, us, start)| == |us| - start
  {
  }

  lemma QueueUnfolds(s: Settings, us: seq<TrackUpdate>)
    requires |us| > 0
    ensures QueueAfter(s, us)
         == Append(Undue(QueueAfter(s, us[..|us| - 1]), us[|us| - 1].updatedAt), PredictionAt(s, us, |us| - 1),
                   PENDING_LIMIT)
  {
    hide Undue, PredictionAt, Append;
  }

  lemma FromGrows(s: Settings, us: seq<TrackUpdate>, start: nat)
    requires start < |us|
    ensures From(s, us[..|us| - 1], start) + [PredictionAt(s, us, |us| - 1)] == From(s, us, start)
  {
    hide PredictionAt, From;
    var n := |us| - 1;
    forall i | 0 <= i < n ensures PredictionAt(s, us[..n], i) == PredictionAt(s, us, i) {
      PredictionIsStable(s, us, n, i);
    }
  }

  lemma FromDrops(s: Settings, us: seq<TrackUpdate>, start: nat, next: nat)
    requires start <= next <= |us|
    ensures From(s, us, start)[next - start..] == From(s, us, next)
  {
    hide PredictionAt, From;
  }

  lemma WaitingStep(s: Settings, us: seq<TrackUpdate>, n: nat, before: seq<TrackUpdate>, first: nat, rest: nat,
                    start: nat)
    requires |us| == n + 1 && before == us[..n] && first <= rest <= n
    requires start == if |us| - rest > PENDING_LIMIT then |us| - PENDING_LIMIT else rest
    requires forall i :: 0 <= i < n ==> (i >= first <==> Waiting(s, before, i, n))
    requires forall i :: first <= i < n ==>
      (i >= rest <==> us[n].updatedAt < before[i].updatedAt + s.horizonS - 3.0)
    ensures forall i :: 0 <= i < |us| ==> (i >= start <==> Waiting(s, us, i, |us|))
  {
    hide Waiting;
    forall i | 0 <= i < |us| ensures i >= start <==> Waiting(s, us, i, |us|) {
      if i < n {
        WaitingOnward(s, us, i);
        assert i >= first ==> (i >= rest <==> !DueAt(s, us, i, n));
      } else {
        NewestWaits(s, us);
      }
    }
  }

  lemma NewestWaits(s: Settings, us: seq<TrackUpdate>)
    requires |us| > 0
    ensures Waiting(s, us, |us| - 1, |us|)
  {
  }

  /** A prediction waits past the next update exactly if it waited before it, is not due at it, and is
      not the oldest of a full queue. */
  lemma WaitingOnward(s: Settings, us: seq<TrackUpdate>, i: nat)
    requires i < |us| - 1
    ensures var n := |us| - 1;
      Waiting(s, us, i, |us|) <==> (Waiting(s, us[..n], i, n) && !DueAt(s, us, i, n) && |us| - i <= PENDING_LIMIT)
  {
    var n := |us| - 1;
    forall m | i < m < n ensures DueAt(s, us[..n], i, m) == DueAt(s, us, i, m) {}
  }

  // ----- Which finding is reported -----

  /** Of the first `k` predictions in the queue, `best` is the one that deviates most, the earliest of
      equals. */
  ghost predicate IsWorst(s: Settings, q: seq<Pending>, k: nat, u: TrackUpdate, best: Option<NonConformance>)
    requires k <= |q|
  {
    if best.None? then forall j :: 0 <= j < k ==> !Deviates(s, q[j], u)
    else exists i :: 0 <= i < k && MostDeviant(s, q, k, u, i) && best.value == FindingOf(s, q[i], u)
  }

  ghost predicate MostDeviant(s: Settings, q: seq<Pending>, k: nat, u: TrackUpdate, i: nat)
    requires i < k <= |q|
  {
    && Deviates(s, q[i], u)
    && (forall j :: 0 <= j < k && Deviates(s, q[j], u) ==> ErrorOf(s, q[j], u) <= ErrorOf(s, q[i], u))
    && (forall j :: 0 <= j < i && Deviates(s, q[j], u) ==> ErrorOf(s, q[j], u) < ErrorOf(s, q[i], u))
  }

  lemma WorstOfOneMore(s: Settings, q: seq<Pending>, k: nat, u: TrackUpdate, best: Option<NonConformance>)
    requires k < |q| && IsWorst(s, q, k, u, best)
    ensures IsWorst(s, q, k + 1, u, Better(s, best, q[k], u))
  {
    hide Deviates, ErrorOf;
    var next := Better(s, best, q[k], u);
    BetterCases(s, best, q[k], u);
    if best.Some? {
      var i :| 0 <= i < k && MostDeviant(s, q, k, u, i) && best.value == FindingOf(s, q[i], u);
      ErrorOfFinding(s, q[i], u);
      if next == best {
        assert MostDeviant(s, q, k + 1, u, i);
      } else {
        assert MostDeviant(s, q, k + 1, u, k);
      }
    } else if next.Some? {
      assert MostDeviant(s, q, k + 1, u, k);
    }
  }

  lemma BetterCases(s: Settings, best: Option<NonConformance>, p: Pending, u: TrackUpdate)
    ensures var next := Better(s, best, p, u);
      if Deviates(s, p, u) && (best.None? || ErrorOf(s, p, u) > best.value.errorNm)
        then next == Some(FindingOf(s, p, u))
      else next == best
  {
  }

  lemma ErrorOfFinding(s: Settings, p: Pending, u: TrackUpdate)
    ensures FindingOf(s, p, u).errorNm == ErrorOf(s, p, u)
  {
  }

  /** Considering the queue from entry `k` on stops at the first entry that is not due. */
  lemma {:induction false} ConsiderFrom(s: Settings, q: seq<Pending>, k: nat, u: TrackUpdate,
                                        best: Option<NonConformance>)
    returns (stop: nat)
    requires k <= |q| && IsWorst(s, q, k, u, best)
    requires forall i, j :: 0 <= i <= j < |q| ==> q[i].validAt <= q[j].validAt
    ensures k <= stop <= |q| && IsWorst(s, q, stop, u, Consider(s, q[k..], u, best))
    ensures forall j :: k <= j < |q| ==> (j < stop <==> Due(q[j], u.updatedAt))
    decreases |q| - k
  {
    hide IsWorst, Better;
    stop := k;
    if k < |q| && Due(q[k], u.updatedAt) {
      WorstOfOneMore(s, q, k, u, best);
      assert q[k..][1..] == q[k + 1..];
      stop := ConsiderFrom(s, q, k + 1, u, Better(s, best, q[k], u));
    }
  }

  /** Among the predictions matched with update `n`, prediction `i` deviates most; of equals it is the
      earliest. */
  ghost predicate WorstQueued(s: Settings, us: seq<TrackUpdate>, n: nat, i: nat)
    requires n < |us| && i < n
  {
    && Matched(s, us, i, n) && DeviatesAt(s, us, i, n)
    && (forall j :: 0 <= j < n && Matched(s, us, j, n) && DeviatesAt(s, us, j, n) ==>
          ErrorOf(s, PredictionAt(s, us, j), us[n]) <= ErrorOf(s, PredictionAt(s, us, i), us[n])
          && (j < i ==> ErrorOf(s, PredictionAt(s, us, j), us[n]) < ErrorOf(s, PredictionAt(s, us, i), us[n])))
  }

  predicate DeviatesAt(s: Settings, us: seq<TrackUpdate>, i: nat, n: nat)
    requires i < n < |us|
  {
    ErrorOf(s, PredictionAt(s, us, i), us[n]) > ThresholdFor(s, PredictionAt(s, us, i).fromModel)
  }

  lemma FindingIsWorstQueued(s: Settings, us: seq<TrackUpdate>, n: nat)
    requires InOrder(us) && n < |us|
    ensures FindingAt(s, us, n).None? <==> forall i :: 0 <= i < n && Matched(s, us, i, n) ==> !DeviatesAt(s, us, i, n)
    ensures FindingAt(s, us, n).Some? ==>
      exists i :: 0 <= i < n && WorstQueued(s, us, n, i)
                  && FindingAt(s, us, n).value == FindingOf(s, PredictionAt(s, us, i), us[n])
  {
    hide Waiting, Matched, Consider, PredictionAt, DeviatesAt, ErrorOf, FindingOf, InOrder, QueueAfter, Due, Deviates;
    var (before, u) := (us[..n], us[n]);
    PrefixInOrder(us, n);
    var start := QueueIsWaiting(s, before);
    var q := From(s, before, start);
    QueueIsOrdered(s, before, start);
    var stop := ConsiderFrom(s, q, 0, u, None);
    assert q[0..] == q;
    forall i | 0 <= i < n
      ensures i < start ==> !Matched(s, us, i, n)
      ensures i >= start ==> q[i - start] == PredictionAt(s, us, i)
      ensures i >= start
        ==> (Matched(s, us, i, n) && DeviatesAt(s, us, i, n) <==> i - start < stop && Deviates(s, q[i - start], u))
    {
      MatchedInQueue(s, us, n, i);
      if i >= start { PredictionIsStable(s, us, n, i); }
    }
    var f := FindingAt(s, us, n);
    if f.None? {
      forall i | 0 <= i < n && Matched(s, us, i, n) ensures !DeviatesAt(s, us, i, n) {}
    } else {
      var k :| 0 <= k < stop && MostDeviant(s, q, stop, u, k) && f.value == FindingOf(s, q[k], u);
      assert q[start + k - start] == PredictionAt(s, us, start + k);
      forall j | 0 <= j < n && Matched(s, us, j, n) && DeviatesAt(s, us, j, n)
        ensures ErrorOf(s, PredictionAt(s, us, j), u) <= ErrorOf(s, q[k], u)
        ensures j < start + k ==> ErrorOf(s, PredictionAt(s, us, j), u) < ErrorOf(s, q[k], u)
      {
        assert q[j - start] == PredictionAt(s, us, j);
      }
      assert WorstQueued(s, us, n, start + k);
    }
  }

  lemma PrefixInOrder(us: seq<TrackUpdate>, n: nat)
    requires InOrder(us) && n <= |us|
    ensures InOrder(us[..n])
  {
  }

  lemma QueueIsOrdered(s: Settings, us: seq<TrackUpdate>, start: nat)
    requires InOrder(us) && start <= |us|
    ensures var q := From(s, us, start); forall i, j :: 0 <= i <= j < |q| ==> q[i].validAt <= q[j].validAt
  {
  }

  lemma MatchedInQueue(s: Settings, us: seq<TrackUpdate>, n: nat, i: nat)
    requires i < n < |us|
    ensures var p := PredictionAt(s, us, i);
      && (Waiting(s, us[..n], i, n) <==> Waiting(s, us, i, n))
      && (Matched(s, us, i, n) && DeviatesAt(s, us, i, n) <==>
          Waiting(s, us, i, n) && Due(p, us[n].updatedAt) && Deviates(s, p, us[n]))
      && (Matched(s, us, i, n) ==> Waiting(s, us, i, n))
  {
    forall m | i < m < n ensures DueAt(s, us[..n], i, m) == DueAt(s, us, i, m) {}
    hide ErrorOf, ThresholdFor;
  }

  // ----- The same in terms of the settings alone -----

  /** The updates a prediction made on update `i` is made from: the latest twenty. */
  function WindowAt(us: seq<TrackUpdate>, i: nat): seq<TrackUpdate>
    requires i < |us|
  {
    us[Beginning(i + 1, WINDOW)..i + 1]
  }

  function ForecastAt(s: Settings, us: seq<TrackUpdate>, i: nat): Prediction
    requires i < |us|
  {
    s.predict(WindowAt(us, i))
  }

  /** Where the latest `limit` of `n` entries begin. */
  function Beginning(n: nat, limit: nat): nat {
    if n > limit then n - limit else 0
  }

  lemma {:induction false} WindowIsLatest(us: seq<TrackUpdate>)
    ensures WindowAfter(us) == us[Beginning(|us|, WINDOW)..]
  {
    hide Append;
    if us != [] {
      var n := |us| - 1;
      WindowIsLatest(us[..n]);
      assert us[..n][Beginning(n, WINDOW)..] == us[Beginning(n, WINDOW)..n];
      AppendLatest(us, n, WINDOW);
    }
  }

  lemma AppendLatest<T>(us: seq<T>, n: nat, limit: nat)
    requires |us| == n + 1 && limit > 0
    ensures Append(us[Beginning(n, limit)..n], us[n], limit) == us[Beginning(n + 1, limit)..]
  {
    hide Append;
    var longer := us[Beginning(n, limit)..];
    assert us[Beginning(n, limit)..n] + [us[n]] == longer;
    AppendIs(us[Beginning(n, limit)..n], us[n], longer, limit);
    if n >= limit { assert longer[1..] == us[Beginning(n, limit) + 1..]; }
  }

  /** What is predicted on update `i`. */
  lemma PredictionIsForecast(s: Settings, us: seq<TrackUpdate>, i: nat)
    requires i < |us|
    ensures var (p, f) := (PredictionAt(s, us, i), ForecastAt(s, us, i));
      && p.validAt == us[i].updatedAt + s.horizonS && p.predictedAt == us[i].updatedAt
      && p.at == f.at && p.baseline == s.deadReckon(us[i], s.horizonS)
      && p.fromModel == f.fromModel && p.version == f.version
  {
    hide WindowAfter;
    WindowIsLatest(us[..i + 1]);
    assert WindowAfter(us[..i + 1]) == WindowAt(us, i);
  }

  /** The calibrated typical error of a prediction of this kind, if it is known. */
  function TypicalOf(s: Settings, fromModel: bool): Option<real> {
    if fromModel then s.modelTypicalNm else s.physicsTypicalNm
  }

  /** The error is beyond the minimum and, if predictions of its own kind have been calibrated, beyond the factor
      times their typical error. */
  predicate Exceeds(s: Settings, fromModel: bool, errorNm: real) {
    && errorNm > s.minimumThresholdNm
    && (fromModel && s.modelTypicalNm.Some? ==> errorNm > s.thresholdFactor * s.modelTypicalNm.value)
    && (!fromModel && s.physicsTypicalNm.Some? ==> errorNm > s.thresholdFactor * s.physicsTypicalNm.value)
  }

  /** The larger of the two bounds. */
  predicate IsThreshold(s: Settings, fromModel: bool, r: real) {
    var typical := TypicalOf(s, fromModel);
    && r >= s.minimumThresholdNm && (typical.Some? ==> r >= s.thresholdFactor * typical.value)
    && (r == s.minimumThresholdNm || (typical.Some? && r == s.thresholdFactor * typical.value))
  }

  /** An error counts exactly when it is beyond both bounds, and the threshold stated is the larger of them. */
  lemma ThresholdIsLargerBound(s: Settings, fromModel: bool, errorNm: real)
    ensures errorNm > ThresholdFor(s, fromModel) <==> Exceeds(s, fromModel, errorNm)
    ensures IsThreshold(s, fromModel, ThresholdFor(s, fromModel))
  {
  }

  /** So a prediction taken from any queue, in whatever order the updates come, counts as missed exactly when it
      is in time and its error is beyond both. */
  lemma DeviatesExactlyWhen(s: Settings, p: Pending, u: TrackUpdate)
    ensures Deviates(s, p, u)
       <==> u.updatedAt <= p.validAt + 3.0 && Exceeds(s, p.fromModel, s.distance(p.at, u))
  {
    hide Exceeds, ThresholdFor;
    ThresholdIsLargerBound(s, p.fromModel, s.distance(p.at, u));
  }

  /** How far update `n` is from where prediction `i` said the aircraft would be. */
  function ErrorAt(s: Settings, us: seq<TrackUpdate>, i: nat, n: nat): real
    requires i < n < |us|
  {
    s.distance(ForecastAt(s, us, i).at, us[n])
  }

  predicate DeviationAt(s: Settings, us: seq<TrackUpdate>, i: nat, n: nat)
    requires i < n < |us|
  {
    Exceeds(s, ForecastAt(s, us, i).fromModel, ErrorAt(s, us, i, n))
  }

  /** Among the predictions matched with update `n`, prediction `i` deviates most; of equals it is the
      earliest. */
  ghost predicate WorstMatch(s: Settings, us: seq<TrackUpdate>, n: nat, i: nat)
    requires n < |us| && i < n
  {
    && Matched(s, us, i, n) && DeviationAt(s, us, i, n)
    && (forall j :: 0 <= j < n && Matched(s, us, j, n) && DeviationAt(s, us, j, n) ==>
          ErrorAt(s, us, j, n) <= ErrorAt(s, us, i, n) && (j < i ==> ErrorAt(s, us, j, n) < ErrorAt(s, us, i, n)))
  }

  /** The finding says by how much prediction `i` missed update `n`, and by how much dead reckoning would have. */
  predicate Reports(s: Settings, us: seq<TrackUpdate>, i: nat, n: nat, f: NonConformance)
    requires i < n < |us|
  {
    && f.trackId == us[n].aircraft && f.callsign == us[n].callsign
    && f.predictedAt == us[i].updatedAt && f.horizonS == s.horizonS
    && f.errorNm == ErrorAt(s, us, i, n)
    && f.baselineErrorNm == s.distance(s.deadReckon(us[i], s.horizonS), us[n])
    && f.usedModel == ForecastAt(s, us, i).fromModel && f.version == ForecastAt(s, us, i).version
    && IsThreshold(s, f.usedModel, f.thresholdNm)
  }

  lemma QueuedIsMatch(s: Settings, us: seq<TrackUpdate>, i: nat, n: nat)
    requires i < n < |us|
    ensures var p := PredictionAt(s, us, i);
      && ErrorOf(s, p, us[n]) == ErrorAt(s, us, i, n)
      && (DeviatesAt(s, us, i, n) <==> DeviationAt(s, us, i, n))
      && Reports(s, us, i, n, FindingOf(s, p, us[n]))
  {
    hide PredictionAt, Exceeds, ThresholdFor, IsThreshold, ForecastAt;
    PredictionIsForecast(s, us, i);
    ThresholdIsLargerBound(s, ForecastAt(s, us, i).fromModel, ErrorAt(s, us, i, n));
  }

  /** For updates in order, the finding on an update is the largest error, beyond both bounds of its own kind, of
      the predictions matched with that update, and there is one exactly when some such error exists. */
  lemma FindingIsWorstMatch(s: Settings, us: seq<TrackUpdate>, n: nat)
    requires InOrder(us) && n < |us|
    ensures FindingAt(s, us, n).None? <==> forall i :: 0 <= i < n && Matched(s, us, i, n) ==> !DeviationAt(s, us, i, n)
    ensures FindingAt(s, us, n).Some? ==>
      exists i :: 0 <= i < n && WorstMatch(s, us, n, i) && Reports(s, us, i, n, FindingAt(s, us, n).value)
  {
    hide Matched, FindingAt, DeviationAt, DeviatesAt, ErrorAt, ErrorOf, PredictionAt, Reports, FindingOf, InOrder;
    forall i | 0 <= i < n
      ensures ErrorOf(s, PredictionAt(s, us, i), us[n]) == ErrorAt(s, us, i, n)
      ensures DeviatesAt(s, us, i, n) <==> DeviationAt(s, us, i, n)
      ensures Reports(s, us, i, n, FindingOf(s, PredictionAt(s, us, i), us[n]))
    {
      QueuedIsMatch(s, us, i, n);
    }
    FindingIsWorstQueued(s, us, n);
    if FindingAt(s, us, n).Some? {
      var i :| 0 <= i < n && WorstQueued(s, us, n, i)
        && FindingAt(s, us, n).value == FindingOf(s, PredictionAt(s, us, i), us[n]);
      assert WorstMatch(s, us, n, i);
    }
  }
}
