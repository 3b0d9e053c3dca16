/** Tracks from reports (estimator.py): initiation, correction, ageing and pruning, one track per
    aircraft address. */
module Estimator {
  import opened Prelude
  import opened Blocks
  import opened Kalman
  import opened KalmanUpdate
  import opened KalmanFilter
  import opened TrackFilters
  import FilterRuns

  datatype TrackState = Initiating | Confirmed | Coasting | Terminated

  /** One position report.  An absent or empty text field is `None`. */
  datatype Report = Report(
    aircraft: Id,
    observedAt: real,
    lat: real,
    lon: real,
    altitudeFt: Option<real>,
    speedKt: Option<real>,
    trackDeg: Option<real>,
    verticalRateFpm: Option<real>,
    callsign: Option<string>,
    squawk: Option<string>,
    scenarioId: Option<string>)

  /** Projection into a track's tangent plane, and the east and north components of a heading. */
  datatype Projection = Projection(
    origin: (real, real) -> (real, real),
    toLocal: ((real, real), real, real) -> (real, real),
    direction: real -> (real, real))

  datatype Settings = Settings(
    tuning: Tuning,
    coastAfterS: real,
    terminateAfterS: real,
    confirmationUpdates: int,
    projection: Projection,
    sqrt: real -> real)

  const CONFIRMATION_UPDATES := 3
  const COAST_AFTER_S := 5.0
  const TERMINATE_AFTER_S := 30.0

  type Setup = s: Settings | s.tuning.Valid()
    witness Settings(DEFAULT_TUNING, COAST_AFTER_S, TERMINATE_AFTER_S, CONFIRMATION_UPDATES,
                     Projection((lat, lon) => (lat, lon), (origin, lat, lon) => (lat, lon), heading => (0.0, 1.0)),
                     x => x)

  /** A filter whose covariance keeps the invariant of every reachable one. */
  type Filter = b: Belief | AllGood(b.blocks)
    witness Belief([0.0, 0.0, 0.0, 0.0, 0.0, 0.0], [Block(1.0, 0.0, 1.0), Block(1.0, 0.0, 1.0), Block(1.0, 0.0, 1.0)],
                   0.0)

  datatype TrackRecord = TrackRecord(
    aircraft: Id,
    callsign: Option<string>,
    squawk: Option<string>,
    scenarioId: Option<string>,
    lastReportAt: real,
    origin: (real, real),
    filter: Filter,
    updateCount: nat,
    state: TrackState,
    terminated: bool)

  /** What the tracker announces about a track.  The estimate it carries is the filter's own, in the
      track's own frame, from which position, speed and the uncertainties are read off. */
  datatype TrackUpdate = TrackUpdate(
    aircraft: Id,
    callsign: Option<string>,
    squawk: Option<string>,
    scenarioId: Option<string>,
    updatedAt: real,
    lastReportAt: real,
    origin: (real, real),
    estimate: Filter,
    updateCount: nat,
    state: TrackState)

  function OrElse<T>(o: Option<T>, d: T): T {
    if o.Some? then o.value else d
  }

  function Either<T>(o: Option<T>, d: Option<T>): Option<T> {
    if o.Some? then o else d
  }

  // ----- One track -----

  function InitialMean(p: Projection, r: Report): Mean {
    var (east, north) := p.toLocal(p.origin(r.lat, r.lon), r.lat, r.lon);
    var (x, y) := p.direction(OrElse(r.trackDeg, 0.0));
    var speed := OrElse(r.speedKt, 0.0);
    [east, north, speed * x, speed * y, OrElse(r.altitudeFt, 0.0), OrElse(r.verticalRateFpm, 0.0)]
  }

  /** What the report measures, in the track's own frame: velocity only when both speed and track are
      present. */
  function MeasurementOf(p: Projection, origin: (real, real), r: Report): Measurement {
    var (east, north) := p.toLocal(origin, r.lat, r.lon);
    var velocity :=
      if r.speedKt.Some? && r.trackDeg.Some? then
        var (x, y) := p.direction(r.trackDeg.value);
        Some((r.speedKt.value * x, r.speedKt.value * y))
      else None;
    Measurement(east, north, r.altitudeFt, velocity, r.verticalRateFpm)
  }

  function InitialFilter(s: Setup, r: Report): Filter {
    InitialIsGood(s.tuning);
    Belief(InitialMean(s.projection, r), InitialBlocks(s.tuning), 0.0)
  }

  function Initiate(s: Setup, r: Report): TrackRecord {
    TrackRecord(r.aircraft, r.callsign, r.squawk, r.scenarioId, r.observedAt, s.projection.origin(r.lat, r.lon),
                InitialFilter(s, r),
                1, Initiating, false)
  }

  /** Fold a report into a live track; one no newer than the last is dropped. */
  function Update(s: Setup, rec: TrackRecord, r: Report): TrackRecord {
    hide FilterRuns.Step, AllGood;
    var dt := r.observedAt - rec.lastReportAt;
    if dt <= 0.0 then rec
    else
      var z := MeasurementOf(s.projection, rec.origin, r);
      var count := rec.updateCount + 1;
      rec.(filter := FilterRuns.Step(s.tuning, rec.filter, FilterRuns.Correct(dt, z), s.sqrt),
           squawk := Either(r.squawk, rec.squawk), callsign := Either(r.callsign, rec.callsign),
           lastReportAt := r.observedAt, updateCount := count,
           state := if count >= s.confirmationUpdates then Confirmed else Initiating)
  }

  /** Run the filter forward to `at` if the last report is older, without moving the report time. */
  function Refreshed(s: Setup, rec: TrackRecord, at: real): TrackRecord {
    hide FilterRuns.Step, AllGood;
    var staleness := Max(0.0, at - rec.lastReportAt);
    if staleness > 0.0 then
      rec.(filter := FilterRuns.Step(s.tuning, rec.filter, FilterRuns.Coast(staleness), s.sqrt))
    else rec
  }

  function Announce(rec: TrackRecord, at: real): TrackUpdate {
    TrackUpdate(rec.aircraft, rec.callsign, rec.squawk, rec.scenarioId, at, rec.lastReportAt, rec.origin, rec.filter,
                rec.updateCount, rec.state)
  }

  /** The track after a report: a fresh one if there was none or it had been terminated. */
  function Reported(s: Setup, existing: Option<TrackRecord>, r: Report): TrackRecord {
    var rec := if existing.None? || existing.value.terminated then Initiate(s, r) else Update(s, existing.value, r);
    Refreshed(s, rec, r.observedAt)
  }

  /** The lifecycle of a track as the clock alone sees it. */
  function AgedState(s: Setup, rec: TrackRecord, now: real): TrackState {
    var silence := now - rec.lastReportAt;
    if rec.terminated then rec.state
    else if silence >= s.terminateAfterS then Terminated
    else if silence >= s.coastAfterS then Coasting
    else rec.state
  }

  predicate Changes(s: Setup, rec: TrackRecord, now: real) {
    !rec.terminated && AgedState(s, rec, now) != rec.state
  }

  /** The track after a sweep: only one whose state changed is refreshed. */
  function Aged(s: Setup, rec: TrackRecord, now: real): TrackRecord {
    if !Changes(s, rec, now) then
      rec.(terminated := rec.terminated || now - rec.lastReportAt >= s.terminateAfterS)
    else
      var state := AgedState(s, rec, now);
      Refreshed(s, rec.(state := state, terminated := state == Terminated), now)
  }

  // ----- All tracks -----

  type Tracks = map<Id, TrackRecord>

  /** Every record is filed under its own address, and is terminated exactly when its state says so. */
  predicate Filed(tracks: Tracks) {
    forall a :: a in tracks ==> tracks[a].aircraft == a && (tracks[a].terminated <==> tracks[a].state == Terminated)
  }

  /** `changed` announces, once each and in some order, the tracks whose state a sweep changes. */
  ghost predicate Announces(s: Setup, before: Tracks, now: real, changed: seq<TrackUpdate>) {
    AnnouncesSome(s, before, now, changed, before.Keys)
  }

  /** The same for the tracks in `done` only. */
  ghost predicate AnnouncesSome(s: Setup, before: Tracks, now: real, changed: seq<TrackUpdate>, done: set<Id>) {
    && (forall i, j :: 0 <= i < j < |changed| ==> changed[i].aircraft != changed[j].aircraft)
    && (forall i :: 0 <= i < |changed| ==> IsAnnouncement(s, before, now, changed[i]) && changed[i].aircraft in done)
    && (forall a :: a in before && a in done && Changes(s, before[a], now) ==>
          exists i :: 0 <= i < |changed| && changed[i].aircraft == a)
  }

  predicate IsAnnouncement(s: Setup, before: Tracks, now: real, u: TrackUpdate) {
    u.aircraft in before && Changes(s, before[u.aircraft], now) && u == Announce(Aged(s, before[u.aircraft], now), now)
  }

  lemma NothingAnnounced(s: Setup, before: Tracks, now: real)
    ensures AnnouncesSome(s, before, now, [], {})
  {
  }

  lemma AnnouncesOneMore(s: Setup, before: Tracks, now: real, changed: seq<TrackUpdate>, done: set<Id>, a: Id,
                         update: Option<TrackUpdate>)
    requires AnnouncesSome(s, before, now, changed, done) && a in before && a !in done
    requires update.Some? <==> Changes(s, before[a], now)
    requires update.Some? ==> update.value == Announce(Aged(s, before[a], now), now) && update.value.aircraft == a
    ensures AnnouncesSome(s, before, now, if update.Some? then changed + [update.value] else changed, done + {a})
  {
    hide Aged, Changes, Announce;
    if update.Some? {
      var longer := changed + [update.value];
      assert longer[|changed|].aircraft == a;
      forall a' | a' in before && a' in done && Changes(s, before[a'], now)
        ensures exists i :: 0 <= i < |longer| && longer[i].aircraft == a'
      {
        var i :| 0 <= i < |changed| && changed[i].aircraft == a';
        assert longer[i].aircraft == a';
      }
    }
  }

  function AllAged(s: Setup, tracks: Tracks, now: real): Tracks {
    map a | a in tracks :: Aged(s, tracks[a], now)
  }

  /** The tracks part way through a sweep: those in `todo` are still as they were. */
  function PartlyAged(s: Setup, before: Tracks, now: real, todo: set<Id>): Tracks {
    map a | a in before :: if a in todo then before[a] else Aged(s, before[a], now)
  }

  lemma NothingAged(s: Setup, before: Tracks, now: real)
    ensures PartlyAged(s, before, now, before.Keys) == before
  {
    hide Aged;
  }

  lemma AgedOneMore(s: Setup, before: Tracks, now: real, todo: set<Id>, a: Id)
    requires a in todo && todo <= before.Keys
    ensures a in PartlyAged(s, before, now, todo) && PartlyAged(s, before, now, todo)[a] == before[a]
    ensures PartlyAged(s, before, now, todo)[a := Aged(s, before[a], now)] == PartlyAged(s, before, now, todo - {a})
  {
    hide Aged;
  }

  lemma EveryoneAged(s: Setup, before: Tracks, now: real)
    ensures PartlyAged(s, before, now, {}) == AllAged(s, before, now)
  {
    hide Aged;
  }

  predicate Prunable(rec: TrackRecord, now: real, olderThanS: real) {
    rec.terminated && rec.lastReportAt < now - olderThanS
  }

  function Pruned(tracks: Tracks, now: real, olderThanS: real): Tracks {
    map a | a in tracks && !Prunable(tracks[a], now, olderThanS) :: tracks[a]
  }

  class TrackEstimator {
    const setup: Setup
    var tracks: Tracks

    ghost predicate Valid()
      reads this
    {
      Filed(tracks)
    }

    constructor (setup: Setup)
      ensures Valid() && this.setup == setup && tracks == map[]
    {
      this.setup, tracks := setup, map[];
    }

    /** Fold one report into its track. */
    method OnReport(r: Report) returns (u: TrackUpdate)
      requires Valid()
      modifies this
      ensures Valid()
      ensures var existing := Lookup(old(tracks), r.aircraft);
        tracks == old(tracks)[r.aircraft := Reported(setup, existing, r)]
      ensures u == Announce(tracks[r.aircraft], r.observedAt)
    {
      hide Refreshed, Initiate, Update;
      var existing := Lookup(tracks, r.aircraft);
      ReportedFacts(setup, existing, r);
      var rec := if existing.None? || existing.value.terminated then Initiate(setup, r)
        else Update(setup, existing.value, r);
      tracks := tracks[r.aircraft := Refreshed(setup, rec, r.observedAt)];
      u := Announce(tracks[r.aircraft], r.observedAt);
    }

    /** Age every track against the clock and announce those whose state changed. */
    method Sweep(now: real) returns (changed: seq<TrackUpdate>)
      requires Valid()
      modifies this
      ensures Valid() && tracks == AllAged(setup, old(tracks), now)
      ensures Announces(setup, old(tracks), now, changed)
    {
      hide Aged, Changes, AnnouncesSome, Announce, PartlyAged, AllAged;
      changed := [];
      var todo := tracks.Keys;
      NothingAnnounced(setup, tracks, now);
      NothingAged(setup, tracks, now);
      assert tracks.Keys - todo == {};
      while todo != {}
        invariant todo <= old(tracks).Keys
        invariant tracks == PartlyAged(setup, old(tracks), now, todo)
        invariant AnnouncesSome(setup, old(tracks), now, changed, old(tracks).Keys - todo)
        decreases |todo|
      {
        var a :| a in todo;
        AgedOneMore(setup, old(tracks), now, todo, a);
        var rec, update := AgeOne(tracks[a], now);
        AnnouncesOneMore(setup, old(tracks), now, changed, old(tracks).Keys - todo, a, update);
        assert old(tracks).Keys - (todo - {a}) == old(tracks).Keys - todo + {a};
        todo := todo - {a};
        tracks := tracks[a := rec];
        changed := if update.Some? then changed + [update.value] else changed;
      }
      assert old(tracks).Keys - todo == old(tracks).Keys;
      EveryoneAged(setup, old(tracks), now);
      AgedStaysFiled(setup, old(tracks), now);
    }

    method AgeOne(rec: TrackRecord, now: real) returns (aged: TrackRecord, update: Option<TrackUpdate>)
      ensures aged == Aged(setup, rec, now)
      ensures update.Some? <==> Changes(setup, rec, now)
      ensures update.Some? ==> update.value == Announce(aged, now) && update.value.aircraft == rec.aircraft
    {
      hide FilterRuns.Step, AllGood;
      aged, update := rec, None;
      if rec.terminated { return; }
      var silence := now - rec.lastReportAt;
      if silence >= setup.terminateAfterS {
        aged := aged.(state := Terminated, terminated := true);
      } else if silence >= setup.coastAfterS {
        aged := aged.(state := Coasting);
      }
      if aged.state != rec.state {
        aged := Refreshed(setup, aged, now);
        update := Some(Announce(aged, now));
      }
    }

    /** Drop tracks terminated long ago. */
    method PruneTerminated(now: real, olderThanS: real)
      requires Valid()
      modifies this
      ensures Valid() && tracks == Pruned(old(tracks), now, olderThanS)
    {
      var stale := set a | a in tracks && Prunable(tracks[a], now, olderThanS);
      tracks := tracks - stale;
    }

    /** Forget aircraft without announcing anything. */
    method Release(addresses: set<Id>)
      requires Valid()
      modifies this
      ensures Valid() && tracks == old(tracks) - addresses
    {
      tracks := tracks - addresses;
    }
  }

  lemma ReportedFacts(s: Setup, existing: Option<TrackRecord>, r: Report)
    requires existing.Some? ==> existing.value.aircraft == r.aircraft
    requires existing.Some? ==> (existing.value.terminated <==> existing.value.state == Terminated)
    ensures var rec := Reported(s, existing, r);
      rec.aircraft == r.aircraft && !rec.terminated && rec.state != Terminated
  {
    hide FilterRuns.Step, AllGood;
  }

  lemma AgedStaysFiled(s: Setup, tracks: Tracks, now: real)
    requires Filed(tracks)
    ensures Filed(AllAged(s, tracks, now))
  {
    hide FilterRuns.Step, AllGood;
  }

  // ----- What a report and a sweep do to a track -----

  /** Within one lifetime of a track, a redelivered or older report changes nothing at all. */
  lemma OldReportChangesNothing(s: Setup, rec: TrackRecord, r: Report)
    requires !rec.terminated && r.observedAt <= rec.lastReportAt
    ensures Reported(s, Some(rec), r) == rec
  {
  }

  /** So handling the same report twice in a row is handling it once. */
  lemma RedeliveryIsIdempotent(s: Setup, existing: Option<TrackRecord>, r: Report)
    requires existing.Some? ==> (existing.value.terminated <==> existing.value.state == Terminated)
    ensures var once := Reported(s, existing, r); Reported(s, Some(once), r) == once
  {
    hide FilterRuns.Step, AllGood;
    var once := Reported(s, existing, r);
    assert once.lastReportAt >= r.observedAt && !once.terminated;
    OldReportChangesNothing(s, once, r);
  }

  /** A track a sweep announces as coasting or terminated has been silent for the stated time, and is
      less certain than before. */
  lemma AnnouncedSilence(s: Setup, rec: TrackRecord, now: real)
    requires IsSqrt(s.sqrt) && 0.0 < s.coastAfterS <= s.terminateAfterS && Changes(s, rec, now)
    ensures var aged := Aged(s, rec, now);
      && aged.state == (if now - rec.lastReportAt >= s.terminateAfterS then Terminated else Coasting)
      && now - rec.lastReportAt >= s.coastAfterS && aged.lastReportAt == rec.lastReportAt
      && FilterRuns.PositionUncertaintyM(aged.filter.blocks, s.sqrt)
         > FilterRuns.PositionUncertaintyM(rec.filter.blocks, s.sqrt)
  {
    hide AllGood, Coasted, FilterRuns.PositionUncertaintyM;
    FilterRuns.CoastingRaises(s.tuning, rec.filter, now - rec.lastReportAt, s.sqrt);
  }
}
