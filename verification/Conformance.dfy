/** The conformance service (conformance/runner.py): the airspace picture, its scans, and what every
    scan leaves behind. */
module Conformance {
  import opened Prelude
  import opened Estimator
  import opened Alerts
  import opened AlertHistory
  import opened AlertStore
  import opened Monitor

  type Picture = map<Id, TrackUpdate>

  /** What the runner is given: the conflict and rule detectors, and how a non-conformance is keyed and
      described. */
  datatype Detectors = Detectors(
    scan: Picture -> seq<Detection>,
    keyOf: Id -> Id,
    summaryOf: Monitor.NonConformance -> string)

  /** The detectors name only tracks of the picture they are shown. */
  ghost predicate NameOnlyThePicture(d: Detectors) {
    forall picture: Picture, i, j ::
      0 <= i < |d.scan(picture)| && 0 <= j < |d.scan(picture)[i].trackIds| ==> d.scan(picture)[i].trackIds[j] in picture
  }

  const MAX_DATA_CLOCK_LEAD_S := 86400.0

  function ReasonCodes(f: Monitor.NonConformance): seq<string> {
    ["prediction_error_above_threshold", if f.usedModel then "model_prediction" else "physics_prediction_only"]
    + if f.errorNm > f.thresholdNm * 2.0 then ["large_deviation"] else []
  }

  function AsDetection(d: Detectors, picture: Picture, f: Monitor.NonConformance): Detection {
    Detection(d.keyOf(f.trackId), AlertKind.NonConformance, Advisory, d.summaryOf(f), ReasonCodes(f), [f.trackId],
              if f.trackId in picture then picture[f.trackId].scenarioId else None)
  }

  predicate Stale(u: TrackUpdate, now: real, staleAfterS: real) {
    u.updatedAt < now - staleAfterS
  }

  function Remaining(picture: Picture, now: real, staleAfterS: real): Picture {
    map k | k in picture && !Stale(picture[k], now, staleAfterS) :: picture[k]
  }

  function Expired(picture: Picture, now: real, staleAfterS: real): set<Id> {
    set k | k in picture && Stale(picture[k], now, staleAfterS)
  }

  /** This scan's detection of a key, if any: a pending non-conformance takes its key over. */
  function Seen(d: Detectors, picture: Picture, findings: map<Id, Monitor.NonConformance>, k: Id): Option<Detection> {
    if k in findings then Some(AsDetection(d, picture, findings[k])) else Lookup(Current(d.scan(picture)), k)
  }

  /** One key through a whole scan: reconciled with what was seen, then dropped if it names a vanished
      track. */
  function ScanThenForget(policy: Policy, slot: Option<Active>, seen: Option<Detection>, gone: set<Id>, now: real,
                          id: nat)
    : (Option<Active>, seq<Alert>)
  {
    var o := ScanKey(policy, slot, seen, now, id);
    var f := ForgetKey(o.slot, gone, now);
    (f.slot, AsSeq(o.out) + AsSeq(f.out))
  }

  function AlarmOf(policy: Policy, active: map<Id, Active>, detections: seq<Detection>, gone: set<Id>, now: real,
                   ids: Id -> nat, k: Id): (Option<Active>, seq<Alert>)
  {
    ScanThenForget(policy, Lookup(active, k), Lookup(Current(detections), k), gone, now, ids(k))
  }

  predicate AllIn(d: Detection, known: set<Id>) {
    forall i :: 0 <= i < |d.trackIds| ==> d.trackIds[i] in known
  }

  lemma NotNamedMeansElsewhere(d: Detection, known: set<Id>, gone: set<Id>)
    requires AllIn(d, known + gone) && !Names(d, gone)
    ensures AllIn(d, known)
  {
  }

  lemma CurrentConcat(a: seq<Detection>, b: seq<Detection>)
    ensures Current(a + b) == Current(a) + Current(b)
  {
    if b == [] {
      assert a + b == a;
    } else {
      assert (a + b)[..|a + b| - 1] == a + b[..|b| - 1];
      CurrentConcat(a, b[..|b| - 1]);
    }
  }

  // ----- The store keeps step with the manager -----

  /** The store holds an entry for a key exactly while the key is active, and it is the active alert. */
  predicate Mirrors(slot: Option<Active>, stored: Option<Stored>) {
    && (slot.Some? <==> stored.Some?)
    && (slot.Some? ==>
      && stored.value.alert.alertId == slot.value.alertId && stored.value.alert.raisedAt == slot.value.raisedAt
      && stored.value.alert.updatedAt == slot.value.lastPublishedAt)
  }

  lemma MirrorsThroughScan(policy: Policy, slot: Option<Active>, stored: Option<Stored>, seen: Option<Detection>,
                           gone: set<Id>, now: real, wall: real, id: nat, ttlS: real)
    requires Mirrors(slot, stored)
    ensures var (slot', alerts) := ScanThenForget(policy, slot, seen, gone, now, id);
      Mirrors(slot', FoldKey(stored, alerts, wall, ttlS))
  {
    var o := ScanKey(policy, slot, seen, now, id);
    var f := ForgetKey(o.slot, gone, now);
    FoldConcat(stored, AsSeq(o.out), AsSeq(f.out), wall, ttlS);
    FoldAtMostOne(stored, o.out, wall, ttlS);
    FoldAtMostOne(FoldKey(stored, AsSeq(o.out), wall, ttlS), f.out, wall, ttlS);
  }

  lemma {:induction false} FoldConcat(slot: Option<Stored>, a: seq<Alert>, b: seq<Alert>, wall: real, ttlS: real)
    ensures FoldKey(slot, a + b, wall, ttlS) == FoldKey(FoldKey(slot, a, wall, ttlS), b, wall, ttlS)
  {
    if b == [] {
      assert a + b == a;
    } else {
      assert (a + b)[..|a + b| - 1] == a + b[..|b| - 1];
      FoldConcat(slot, a, b[..|b| - 1], wall, ttlS);
    }
  }

  // ----- What holds between scans, and after one -----

  /** Everything held, as values. */
  datatype Holdings = Holdings(
    picture: Picture,
    terminated: set<Id>,
    traced: set<Id>,
    findings: map<Id, Monitor.NonConformance>,
    windows: set<Id>,
    pending: set<Id>,
    active: map<Id, Active>,
    live: map<Id, Stored>)

  ghost predicate Sound(h: Holdings) {
    && h.traced == h.picture.Keys
    && h.windows <= h.picture.Keys + h.terminated && h.pending <= h.picture.Keys + h.terminated
    && (forall k :: k in h.picture ==> h.picture[k].aircraft == k)
    && (forall k :: k in h.findings ==> h.findings[k].trackId in h.picture.Keys + h.terminated)
    && (forall k :: k in h.active ==> AllIn(h.active[k].detection, h.picture.Keys + h.terminated))
    && (forall k :: Mirrors(Lookup(h.active, k), Lookup(h.live, k)))
  }

  /** What a scan leaves: nothing is held about any track that is not in the picture. */
  ghost predicate Settled(h: Holdings) {
    && Sound(h) && h.terminated == {} && h.findings == map[]
    && h.windows <= h.picture.Keys && h.pending <= h.picture.Keys
    && (forall k :: k in h.active ==> AllIn(h.active[k].detection, h.picture.Keys))
    && h.live.Keys == h.active.Keys
  }

  lemma SoundWithoutLeaversIsSettled(h: Holdings)
    requires Sound(h) && h.terminated == {} && h.findings == map[]
    ensures Settled(h)
  {
    assert h.picture.Keys + h.terminated == h.picture.Keys;
    forall k ensures k in h.live <==> k in h.active { assert Mirrors(Lookup(h.active, k), Lookup(h.live, k)); }
  }

  /** What a scan does to one key. */
  function ScanOfKey(d: Detectors, policy: Policy, staleAfterS: real, now: real, ids: Id -> nat, h: Holdings, k: Id)
    : (Option<Active>, seq<Alert>)
  {
    ScanThenForget(policy, Lookup(h.active, k), Seen(d, Remaining(h.picture, now, staleAfterS), h.findings, k),
                   Expired(h.picture, now, staleAfterS) + h.terminated, now, ids(k))
  }

  /** What a scan does to the holdings. */
  ghost predicate Scanned(d: Detectors, policy: Policy, ttlS: real, staleAfterS: real, now: real, wall: real,
                          ids: Id -> nat, h: Holdings, h': Holdings)
  {
    var gone := Expired(h.picture, now, staleAfterS) + h.terminated;
    && h'.picture == Remaining(h.picture, now, staleAfterS) && h'.terminated == {} && h'.findings == map[]
    && h'.traced == h.traced - Expired(h.picture, now, staleAfterS)
    && h'.windows == h.windows - gone && h'.pending == h.pending - gone
    && forall k ::
         var (slot, alerts) := ScanOfKey(d, policy, staleAfterS, now, ids, h, k);
         Lookup(h'.active, k) == slot && Lookup(h'.live, k) == FoldKey(Lookup(h.live, k), alerts, wall, ttlS)
  }

  /** An alert that survives a scan names only tracks still in the picture. */
  lemma SurvivorsAreInPicture(d: Detectors, policy: Policy, ttlS: real, staleAfterS: real, now: real, wall: real,
                              ids: Id -> nat, h: Holdings, h': Holdings, k: Id)
    requires NameOnlyThePicture(d) && Sound(h) && Scanned(d, policy, ttlS, staleAfterS, now, wall, ids, h, h')
    requires k in h'.active
    ensures AllIn(h'.active[k].detection, h'.picture.Keys)
  {
    var gone := Expired(h.picture, now, staleAfterS) + h.terminated;
    var seen := Seen(d, h'.picture, h.findings, k);
    var o := ScanKey(policy, Lookup(h.active, k), seen, now, ids(k));
    var a := o.slot.value;
    assert Lookup(h'.active, k) == ForgetKey(o.slot, gone, now).slot == Some(a);
    assert h.picture.Keys + h.terminated == h'.picture.Keys + gone;
    if seen.None? {
      assert AllIn(h.active[k].detection, h.picture.Keys + h.terminated);
    } else if k !in h.findings {
      assert seen.value in d.scan(h'.picture);
    }
    NotNamedMeansElsewhere(a.detection, h'.picture.Keys, gone);
  }

  /** Every scan settles whatever absorbing and expiring left, in every interleaving of the two. */
  lemma ScanSettles(d: Detectors, policy: Policy, ttlS: real, staleAfterS: real, now: real, wall: real, ids: Id -> nat,
                    h: Holdings, h': Holdings)
    requires NameOnlyThePicture(d) && Sound(h) && Scanned(d, policy, ttlS, staleAfterS, now, wall, ids, h, h')
    ensures Sound(h') && Settled(h')
  {
    hide ScanThenForget, NameOnlyThePicture, AllIn, Seen, Mirrors, FoldKey;
    var gone := Expired(h.picture, now, staleAfterS) + h.terminated;
    assert h.picture.Keys + h.terminated == h'.picture.Keys + gone;
    assert h'.picture.Keys + h'.terminated == h'.picture.Keys;
    forall k | k in h'.active ensures AllIn(h'.active[k].detection, h'.picture.Keys) {
      SurvivorsAreInPicture(d, policy, ttlS, staleAfterS, now, wall, ids, h, h', k);
    }
    forall k ensures Mirrors(Lookup(h'.active, k), Lookup(h'.live, k)) {
      assert Mirrors(Lookup(h.active, k), Lookup(h.live, k));
      MirrorsThroughScan(policy, Lookup(h.active, k), Lookup(h.live, k), Seen(d, h'.picture, h.findings, k), gone, now,
                         wall, ids(k), ttlS);
    }
    SoundWithoutLeaversIsSettled(h');
  }

  // ----- Absorbing keeps the books -----

  lemma TerminationKeepsSound(h: Holdings, h': Holdings, id: Id)
    requires Sound(h)
    requires h' == h.(picture := h.picture - {id}, traced := h.traced - {id}, terminated := h.terminated + {id})
    ensures Sound(h')
  {
    hide Mirrors;
    forall known | known == h'.picture.Keys + h'.terminated ensures h.picture.Keys + h.terminated <= known {}
  }

  lemma UpdateKeepsSound(h: Holdings, h': Holdings, u: TrackUpdate)
    requires Sound(h)
    requires h'.picture == h.picture[u.aircraft := u] && h'.traced == h.traced + {u.aircraft}
    requires h'.terminated == h.terminated
    requires h'.windows == h.windows + {u.aircraft} && h'.pending == h.pending + {u.aircraft}
    requires h'.active == h.active && h'.live == h.live
    requires forall k :: k in h'.findings ==>
      (k in h.findings && h'.findings[k] == h.findings[k]) || h'.findings[k].trackId == u.aircraft
    ensures Sound(h')
  {
    hide Mirrors;
  }

  // ----- What the runner holds of each track -----

  datatype View = View(picture: Picture, terminated: set<Id>, windows: map<Id, seq<TrackUpdate>>,
                       pending: map<Id, seq<Pending>>)

  predicate Outdated(picture: Picture, u: TrackUpdate) {
    u.aircraft in picture && u.updatedAt < picture[u.aircraft].updatedAt
  }

  /** A termination leaves the monitor for the next scan, an outdated update changes nothing, and any other
      is shown and observed. */
  function Absorbed(s: Monitor.Settings, v: View, u: TrackUpdate): View {
    var a := u.aircraft;
    if u.state == Terminated then v.(picture := v.picture - {a}, terminated := v.terminated + {a})
    else if Outdated(v.picture, u) then v
    else Shown(s, v, u)
  }

  function Shown(s: Monitor.Settings, v: View, u: TrackUpdate): View {
    var a := u.aircraft;
    var window := Append(Held(v.windows, a), u, WINDOW);
    View(v.picture[a := u], v.terminated, v.windows[a := window],
         v.pending[a := Append(Undue(Held(v.pending, a), u.updatedAt), MakePrediction(s, window, u), PENDING_LIMIT)])
  }

  /** A scan drops what is stale or terminated, and all the monitor holds about it. */
  function Rescanned(v: View, now: real, staleAfterS: real): View {
    var gone := Expired(v.picture, now, staleAfterS) + v.terminated;
    View(Remaining(v.picture, now, staleAfterS), {}, v.windows - gone, v.pending - gone)
  }

  /** Every pending finding is held under the key of its track. */
  predicate Keyed(d: Detectors, findings: map<Id, Monitor.NonConformance>) {
    forall k :: k in findings ==> d.keyOf(findings[k].trackId) == k
  }

  // ----- The runner object -----

  class ConformanceRunner {
    const detectors: Detectors
    const staleAfterS: real
    const manager: AlertManager
    const store: LiveAlertStore
    const conformance: ConformanceMonitor
    var picture: Picture
    /** Explicitly terminated tracks awaiting release at the next scan. */
    var terminated: set<Id>
    /** The trace that delivered each track's latest position. */
    var traceOf: map<Id, Option<nat>>
    /** Findings since the last scan, the latest of each key. */
    var pendingConformance: map<Id, Monitor.NonConformance>
    var latestSeen: Option<real>

    function State(): Holdings
      reads this, manager, store, conformance
    {
      Holdings(picture, terminated, traceOf.Keys, pendingConformance, conformance.windows.Keys,
               conformance.pending.Keys,
               manager.active, store.live)
    }

    function Tracks(): View
      reads this, conformance
    {
      View(picture, terminated, conformance.windows, conformance.pending)
    }

    ghost predicate Valid()
      reads this, manager, store, conformance
    {
      manager.Valid() && store.Valid() && NameOnlyThePicture(detectors) && Sound(State())
        && Keyed(detectors, pendingConformance)
    }

    constructor (detectors: Detectors, staleAfterS: real, manager: AlertManager, store: LiveAlertStore,
                 conformance: ConformanceMonitor)
      requires NameOnlyThePicture(detectors) && manager.Valid() && store.Valid()
      requires manager.active == map[] && store.live == map[] && conformance.windows == map[]
      requires conformance.pending == map[]
      ensures Valid() && this.manager == manager && this.store == store && this.conformance == conformance
      ensures this.detectors == detectors && this.staleAfterS == staleAfterS
      ensures picture == map[] && terminated == {} && pendingConformance == map[] && latestSeen == None
    {
      this.detectors, this.staleAfterS, this.manager, this.store, this.conformance :=
        detectors, staleAfterS, manager, store, conformance;
      picture, terminated, traceOf, pendingConformance, latestSeen := map[], {}, map[], map[], None;
    }

    /** Fold one track update into the picture. */
    method Absorb(update: TrackUpdate, trace: Option<nat>, wall: real)
      requires Valid()
      modifies this, conformance
      ensures Valid()
      ensures update.state == Terminated ==>
        State() == old(State()).(picture := old(picture) - {update.aircraft},
                                 traced := old(State()).traced - {update.aircraft},
                                 terminated := old(terminated) + {update.aircraft})
      ensures update.state != Terminated && Outdated(old(picture), update) ==> State() == old(State())
      ensures update.state != Terminated && !Outdated(old(picture), update) ==>
        var finding := Consider(conformance.settings, Held(old(conformance.pending), update.aircraft), update, None);
        && picture == old(picture)[update.aircraft := update] && traceOf == old(traceOf)[update.aircraft := trace]
        && terminated == old(terminated)
        && pendingConformance == (if finding.Some?
                                  then old(pendingConformance)[detectors.keyOf(update.aircraft) := finding.value]
                                  else old(pendingConformance))
      ensures Tracks() == Absorbed(conformance.settings, old(Tracks()), update)
      ensures latestSeen == ClockAfter(old(latestSeen), old(picture), update, wall)
    {
      hide Sound, NameOnlyThePicture, Consider, Undue, Append, MakePrediction, Keyed;
      if update.state == Terminated {
        AbsorbTermination(update.aircraft);
        return;
      }
      if update.aircraft in picture && update.updatedAt < picture[update.aircraft].updatedAt { return; }
      if update.updatedAt <= wall + MAX_DATA_CLOCK_LEAD_S && (latestSeen.None? || update.updatedAt > latestSeen.value) {
        latestSeen := Some(update.updatedAt);
      }
      AbsorbPosition(update, trace);
    }

    method AbsorbTermination(id: Id)
      requires Valid()
      modifies this`picture, this`traceOf, this`terminated
      ensures Valid()
      ensures State() == old(State()).(picture := old(picture) - {id}, traced := old(State()).traced - {id},
                                       terminated := old(terminated) + {id})
    {
      hide Sound, NameOnlyThePicture, Keyed;
      ghost var before := State();
      picture := picture - {id};
      traceOf := traceOf - {id};
      terminated := terminated + {id};
      TerminationKeepsSound(before, State(), id);
    }

    method AbsorbPosition(update: TrackUpdate, trace: Option<nat>)
      requires Valid()
      modifies this`picture, this`traceOf, this`pendingConformance, conformance
      ensures Valid()
      ensures picture == old(picture)[update.aircraft := update] && traceOf == old(traceOf)[update.aircraft := trace]
      ensures var finding := Consider(conformance.settings, Held(old(conformance.pending), update.aircraft), update,
                                      None);
        pendingConformance == if finding.Some?
          then old(pendingConformance)[detectors.keyOf(update.aircraft) := finding.value]
                              else old(pendingConformance)
      ensures Tracks() == Shown(conformance.settings, old(Tracks()), update)
    {
      hide Sound, NameOnlyThePicture, Consider, Undue, Append, MakePrediction;
      ghost var before := State();
      picture := picture[update.aircraft := update];
      traceOf := traceOf[update.aircraft := trace];
      FindingIsAbout(conformance.settings, Held(conformance.pending, update.aircraft), update, None);
      var finding := conformance.Observe(update);
      if finding.Some? {
        pendingConformance := pendingConformance[detectors.keyOf(finding.value.trackId) := finding.value];
      }
      UpdateKeepsSound(before, State(), update);
    }

    method ExpireStale(now: real) returns (stale: set<Id>)
      modifies this`picture, this`traceOf
      ensures stale == Expired(old(picture), now, staleAfterS) && picture == Remaining(old(picture), now, staleAfterS)
      ensures traceOf == old(traceOf) - stale
    {
      stale := set k | k in picture && Stale(picture[k], now, staleAfterS);
      picture := picture - stale;
      traceOf := traceOf - stale;
    }

    /** Pending findings as detections, one per key. */
    method TakeFindings() returns (found: seq<Detection>)
      requires Keyed(detectors, pendingConformance)
      modifies this`pendingConformance
      ensures pendingConformance == map[]
      ensures Current(found)
           == map k | k in old(pendingConformance) :: AsDetection(detectors, picture, old(pendingConformance)[k])
    {
      found := [];
      var todo := pendingConformance.Keys;
      while todo != {}
        invariant todo <= pendingConformance.Keys
        invariant Current(found)
               == map k | k in pendingConformance && k !in todo ::
                 AsDetection(detectors, picture, pendingConformance[k])
        decreases |todo|
      {
        var k :| k in todo;
        var d := AsDetection(detectors, picture, pendingConformance[k]);
        assert (found + [d])[..|found|] == found;
        todo := todo - {k};
        found := found + [d];
      }
      pendingConformance := map[];
    }

    /** Everything detected this scan. */
    method Detect() returns (detections: seq<Detection>)
      requires Keyed(detectors, pendingConformance)
      modifies this`pendingConformance
      ensures pendingConformance == map[]
      ensures forall k :: Lookup(Current(detections), k) == Seen(detectors, picture, old(pendingConformance), k)
    {
      hide Current, AsDetection, Keyed;
      detections := detectors.scan(picture);
      var found := TakeFindings();
      CurrentConcat(detections, found);
      detections := detections + found;
    }

    /** Reconcile, then forget the vanished: each key is taken through both. */
    method Alarm(detections: seq<Detection>, vanished: set<Id>, now: real, ids: Id -> nat) returns (alerts: seq<Alert>)
      requires manager.Valid()
      modifies manager
      ensures manager.Valid()
      ensures forall k :: Lookup(manager.active, k)
                       == AlarmOf(manager.policy, old(manager.active), detections, vanished, now, ids, k).0
      ensures forall k ::
        ForKey(alerts, k) == AlarmOf(manager.policy, old(manager.active), detections, vanished, now, ids, k).1
    {
      hide ScanKey, ForgetKey, ForKey, Lookup;
      alerts := manager.Reconcile(detections, now, ids);
      var cleared := manager.Forget(vanished, now);
      forall k ensures ForKey(alerts + cleared, k) == ForKey(alerts, k) + ForKey(cleared, k) {
        ForKeyConcat(alerts, cleared, k);
      }
      alerts := alerts + cleared;
    }

    /** One scan: detect, reconcile, forget the vanished, and bring the store up to date.  Everything is
        judged as of `now`; only the store counts by the wall clock. */
    method ScanNow(now: real, wall: real, ids: Id -> nat) returns (alerts: seq<Alert>)
      requires Valid()
      modifies this, manager, store, conformance
      ensures Valid() && Settled(State()) && latestSeen == old(latestSeen)
      ensures Scanned(detectors, manager.policy, store.ttlS, staleAfterS, now, wall, ids, old(State()), State())
      ensures Tracks() == Rescanned(old(Tracks()), now, staleAfterS)
      ensures forall k ::
        ForKey(alerts, k) == ScanOfKey(detectors, manager.policy, staleAfterS, now, ids, old(State()), k).1
    {
      hide Sound, NameOnlyThePicture, Settled, ScanThenForget, FoldKey, ForKey, Seen, Expired, Remaining, Lookup;
      ghost var before := State();
      var vanished := ExpireStale(now);
      vanished := vanished + terminated;
      terminated := {};
      var detections := Detect();
      alerts := Alarm(detections, vanished, now, ids);
      conformance.Forget(vanished);
      store.Apply(alerts, wall);
      ScanSettles(detectors, manager.policy, store.ttlS, staleAfterS, now, wall, ids, before, State());
    }

    /** The timer's scan: as of the later of the wall clock and the newest data time. */
    method ScanOnTimer(wall: real, ids: Id -> nat) returns (alerts: seq<Alert>)
      requires Valid()
      modifies this, manager, store, conformance
      ensures Valid() && Settled(State()) && latestSeen == old(latestSeen)
      ensures Scanned(detectors, manager.policy, store.ttlS, staleAfterS, Clock(latestSeen, wall), wall, ids,
                      old(State()), State())
      ensures Tracks() == Rescanned(old(Tracks()), Clock(latestSeen, wall), staleAfterS)
    {
      hide Sound, NameOnlyThePicture, Settled, ScanThenForget, FoldKey, ForKey, Seen, Expired, Remaining, Lookup;
      alerts := ScanNow(Clock(latestSeen, wall), wall, ids);
    }
  }

  /** The time the scanner reasons about. */
  function Clock(latest: Option<real>, wall: real): real {
    if latest.Some? then Max(wall, latest.value) else wall
  }

  /** Whatever is absorbed, the scanner's clock is never behind the wall clock, never leads it by more than
      a day, and does not run backwards. */
  lemma ClockStaysWithinADay(latest: Option<real>, picture: Picture, u: TrackUpdate, earlier: real, wall: real)
    requires earlier <= wall && (latest.Some? ==> latest.value <= earlier + MAX_DATA_CLOCK_LEAD_S)
    ensures var after := ClockAfter(latest, picture, u, wall);
      && wall <= Clock(after, wall) <= wall + MAX_DATA_CLOCK_LEAD_S && Clock(latest, earlier) <= Clock(after, wall)
      && (after.Some? ==> after.value <= wall + MAX_DATA_CLOCK_LEAD_S)
  {
  }

  /** The newest data time seen, ignoring any implausibly far ahead of the wall clock. */
  function ClockAfter(latest: Option<real>, picture: Picture, u: TrackUpdate, wall: real): Option<real> {
    if u.state != Terminated && !Outdated(picture, u) && u.updatedAt <= wall + MAX_DATA_CLOCK_LEAD_S
       && (latest.None? || u.updatedAt > latest.value)
    then Some(u.updatedAt) else latest
  }

  lemma {:induction false} FindingIsAbout(s: Monitor.Settings, q: seq<Pending>, u: TrackUpdate,
                                          best: Option<Monitor.NonConformance>)
    requires best.Some? ==> best.value.trackId == u.aircraft
    ensures var f := Consider(s, q, u, best); f.Some? ==> f.value.trackId == u.aircraft
    decreases |q|
  {
    if q != [] && Due(q[0], u.updatedAt) { FindingIsAbout(s, q[1..], u, Better(s, best, q[0], u)); }
  }
}
