/** The track stores (stores.py): history that may be written twice, and the live picture. */
module TrackStores {
  import opened Prelude
  import opened Estimator

  /** A row of the track table. */
  datatype TrackRow = TrackRow(
    callsign: Option<string>,
    scenarioId: Option<string>,
    firstSeenAt: real,
    lastSeenAt: real,
    state: TrackState,
    updateCount: nat)

  /** A point of a track's history. */
  datatype Point = Point(origin: (real, real), estimate: Filter)

  /** The unique key of a point: the track and the time it was observed. */
  type PointKey = (Id, real)

  datatype Tables = Tables(tracks: map<Id, TrackRow>, points: map<PointKey, Point>)

  function KeyOf(u: TrackUpdate): PointKey {
    (u.aircraft, u.updatedAt)
  }

  function PointOf(u: TrackUpdate): Point {
    Point(u.origin, u.estimate)
  }

  // ----- What a batch says about one track, and about one point -----

  /** The newest update of a track; of equally new ones the last. */
  function LatestIn(batch: seq<TrackUpdate>, a: Id): Option<TrackUpdate> {
    if batch == [] then None
    else
      var (before, u) := (LatestIn(batch[..|batch| - 1], a), batch[|batch| - 1]);
      if u.aircraft == a && (before.None? || u.updatedAt >= before.value.updatedAt) then Some(u) else before
  }

  function FirstSeenIn(batch: seq<TrackUpdate>, a: Id): Option<real> {
    if batch == [] then None
    else
      var (before, u) := (FirstSeenIn(batch[..|batch| - 1], a), batch[|batch| - 1]);
      if u.aircraft == a && (before.None? || u.lastReportAt < before.value) then Some(u.lastReportAt) else before
  }

  /** The last update of a batch with a given key. */
  function PointIn(batch: seq<TrackUpdate>, k: PointKey): Option<TrackUpdate> {
    if batch == [] then None
    else if KeyOf(batch[|batch| - 1]) == k then Some(batch[|batch| - 1])
    else PointIn(batch[..|batch| - 1], k)
  }

  function NewRow(u: TrackUpdate, firstSeenAt: real): TrackRow {
    TrackRow(u.callsign, u.scenarioId, firstSeenAt, u.updatedAt, u.state, u.updateCount)
  }

  /** A conflicting row takes the batch's newest state, and keeps when the track was first seen. */
  function Merged(row: TrackRow, u: TrackUpdate): TrackRow {
    row.(lastSeenAt := u.updatedAt, state := u.state, updateCount := u.updateCount, callsign := u.callsign)
  }

  function RowAfter(row: Option<TrackRow>, batch: seq<TrackUpdate>, a: Id): Option<TrackRow> {
    var (latest, first) := (LatestIn(batch, a), FirstSeenIn(batch, a));
    if latest.None? then row
    else if row.Some? then Some(Merged(row.value, latest.value))
    else if first.Some? then Some(NewRow(latest.value, first.value))
    else None
  }

  function PointAfter(point: Option<Point>, batch: seq<TrackUpdate>, k: PointKey): Option<Point> {
    if point.Some? then point
    else
      var u := PointIn(batch, k);
      if u.Some? then Some(PointOf(u.value)) else None
  }

  /** The tables after a batch, row by row and point by point. */
  ghost predicate RecordedTo(before: Tables, batch: seq<TrackUpdate>, after: Tables) {
    && (forall a :: Lookup(after.tracks, a) == RowAfter(Lookup(before.tracks, a), batch, a))
    && (forall k :: Lookup(after.points, k) == PointAfter(Lookup(before.points, k), batch, k))
  }

  class TrackHistoryStore {
    var tracks: map<Id, TrackRow>
    var points: map<PointKey, Point>

    constructor ()
      ensures State() == Tables(map[], map[])
    {
      tracks, points := map[], map[];
    }

    function State(): Tables
      reads this
    {
      Tables(tracks, points)
    }

    method Record(updates: seq<TrackUpdate>)
      modifies this
      ensures RecordedTo(old(State()), updates, State())
    {
      if updates == [] { return; }
      var latest, firstSeen := Collapse(updates);
      forall a ensures a in latest ==> a in firstSeen { LatestMeansSeen(updates, a); }
      Upsert(latest, firstSeen);
      assert forall a :: Lookup(tracks, a) == RowAfter(Lookup(old(tracks), a), updates, a);
      var found := Deduplicate(updates);
      points := found + points;
    }

    /** One update and one first sighting per track. */
    method Collapse(updates: seq<TrackUpdate>) returns (latest: map<Id, TrackUpdate>, firstSeen: map<Id, real>)
      ensures forall a :: Lookup(latest, a) == LatestIn(updates, a)
      ensures forall a :: Lookup(firstSeen, a) == FirstSeenIn(updates, a)
    {
      latest, firstSeen := map[], map[];
      for i := 0 to |updates|
        invariant forall a :: Lookup(latest, a) == LatestIn(updates[..i], a)
        invariant forall a :: Lookup(firstSeen, a) == FirstSeenIn(updates[..i], a)
      {
        var u := updates[i];
        assert updates[..i + 1][..i] == updates[..i];
        if u.aircraft !in latest || u.updatedAt >= latest[u.aircraft].updatedAt {
          latest := latest[u.aircraft := u];
        }
        if u.aircraft !in firstSeen || u.lastReportAt < firstSeen[u.aircraft] {
          firstSeen := firstSeen[u.aircraft := u.lastReportAt];
        }
      }
      assert updates[..|updates|] == updates;
    }

    /** Insert the collapsed rows, merging each into the row already there. */
    method Upsert(latest: map<Id, TrackUpdate>, firstSeen: map<Id, real>)
      requires latest.Keys <= firstSeen.Keys
      modifies this`tracks
      ensures forall a :: Lookup(tracks, a) == (if a !in latest then Lookup(old(tracks), a)
                                                else if a in old(tracks) then Some(Merged(old(tracks)[a], latest[a]))
                                                else Some(NewRow(latest[a], firstSeen[a])))
    {
      tracks := map a | a in tracks.Keys + latest.Keys ::
        if a !in latest then tracks[a] else if a in tracks then Merged(tracks[a], latest[a])
          else NewRow(latest[a], firstSeen[a]);
    }

    method Deduplicate(updates: seq<TrackUpdate>) returns (found: map<PointKey, Point>)
      ensures forall k :: Lookup(found, k) == PointAfter(None, updates, k)
    {
      found := map[];
      for i := 0 to |updates|
        invariant forall k :: Lookup(found, k) == PointAfter(None, updates[..i], k)
      {
        var batch := updates[..i + 1];
        assert batch[..|batch| - 1] == updates[..i] && batch[|batch| - 1] == updates[i];
        ghost var before := found;
        found := found[KeyOf(updates[i]) := PointOf(updates[i])];
        forall k ensures Lookup(found, k) == PointAfter(None, batch, k) {
          assert Lookup(before, k) == PointAfter(None, updates[..i], k);
          assert PointIn(batch, k) == if KeyOf(updates[i]) == k then Some(updates[i]) else PointIn(updates[..i], k);
        }
      }
      assert updates[..|updates|] == updates;
    }
  }

  // ----- What the collapse keeps -----

  lemma {:induction false} LatestMeansSeen(batch: seq<TrackUpdate>, a: Id)
    ensures LatestIn(batch, a).Some? <==> FirstSeenIn(batch, a).Some?
  {
    if batch != [] { LatestMeansSeen(batch[..|batch| - 1], a); }
  }

  /** The collapsed update of a track is one of the batch, none of the track's is newer, and those as
      new come before it. */
  lemma {:induction false} LatestIsNewest(batch: seq<TrackUpdate>, a: Id)
    ensures LatestIn(batch, a).None? <==> forall i :: 0 <= i < |batch| ==> batch[i].aircraft != a
    ensures LatestIn(batch, a).Some? ==>
      exists k :: 0 <= k < |batch| && batch[k] == LatestIn(batch, a).value && IsNewest(batch, a, k)
  {
    hide IsNewest;
    if batch != [] {
      var n := |batch| - 1;
      var before := batch[..n];
      LatestIsNewest(before, a);
      assert forall i :: 0 <= i < n ==> before[i] == batch[i];
      if LatestIn(before, a).Some? {
        var k :| 0 <= k < n && before[k] == LatestIn(before, a).value && IsNewest(before, a, k);
        NewestOfOneMore(batch, a, k);
      } else if batch[n].aircraft == a {
        OnlyOneIsNewest(batch, a);
      }
    }
  }

  lemma NewestOfOneMore(batch: seq<TrackUpdate>, a: Id, k: nat)
    requires |batch| > 0 && IsNewest(batch[..|batch| - 1], a, k)
    ensures var n := |batch| - 1;
      IsNewest(batch, a, if batch[n].aircraft == a && batch[n].updatedAt >= batch[k].updatedAt then n else k)
  {
    var (n, before) := (|batch| - 1, batch[..|batch| - 1]);
    forall i | 0 <= i < n && batch[i].aircraft == a ensures batch[i].updatedAt <= batch[k].updatedAt {
      assert before[i] == batch[i];
    }
    forall i | k < i < n && batch[i].aircraft == a ensures batch[i].updatedAt < batch[k].updatedAt {
      assert before[i] == batch[i];
    }
  }

  lemma OnlyOneIsNewest(batch: seq<TrackUpdate>, a: Id)
    requires |batch| > 0 && batch[|batch| - 1].aircraft == a
    requires forall i :: 0 <= i < |batch| - 1 ==> batch[i].aircraft != a
    ensures IsNewest(batch, a, |batch| - 1)
  {
  }

  predicate IsNewest(batch: seq<TrackUpdate>, a: Id, k: nat) {
    k < |batch| && batch[k].aircraft == a
    && forall i :: 0 <= i < |batch| && batch[i].aircraft == a ==>
         batch[i].updatedAt <= batch[k].updatedAt && (i > k ==> batch[i].updatedAt < batch[k].updatedAt)
  }

  /** The first sighting of a track in a batch is the earliest of its report times. */
  lemma {:induction false} FirstSeenIsEarliest(batch: seq<TrackUpdate>, a: Id)
    ensures FirstSeenIn(batch, a).Some? ==>
      && (forall i :: 0 <= i < |batch| && batch[i].aircraft == a ==>
            FirstSeenIn(batch, a).value <= batch[i].lastReportAt)
      && (exists i :: 0 <= i < |batch| && batch[i].aircraft == a
                      && FirstSeenIn(batch, a).value == batch[i].lastReportAt)
    ensures FirstSeenIn(batch, a).None? ==> forall i :: 0 <= i < |batch| ==> batch[i].aircraft != a
  {
    if batch != [] {
      var before := batch[..|batch| - 1];
      FirstSeenIsEarliest(before, a);
      assert forall i :: 0 <= i < |before| ==> before[i] == batch[i];
      if FirstSeenIn(before, a).Some? {
        var i :| 0 <= i < |before| && before[i].aircraft == a && FirstSeenIn(before, a).value == before[i].lastReportAt;
        assert batch[i] == before[i];
      }
    }
  }

  /** After a batch that mentions a track, its row shows the newest update of it; when it was first seen
      and in which scenario is settled by the batch that created the row. */
  lemma RowShowsNewestUpdate(before: Tables, batch: seq<TrackUpdate>, after: Tables, a: Id, i: nat)
    requires RecordedTo(before, batch, after) && i < |batch| && batch[i].aircraft == a
    ensures a in after.tracks
    ensures exists k: nat :: IsNewest(batch, a, k) && ShowsUpdate(after.tracks[a], batch[k])
                        && (a !in before.tracks ==> after.tracks[a].scenarioId == batch[k].scenarioId)
    ensures a in before.tracks ==>
      && after.tracks[a].firstSeenAt == before.tracks[a].firstSeenAt
      && after.tracks[a].scenarioId == before.tracks[a].scenarioId
    ensures a !in before.tracks ==>
      && after.tracks[a].firstSeenAt <= batch[i].lastReportAt
      && exists j :: 0 <= j < |batch| && batch[j].aircraft == a && after.tracks[a].firstSeenAt == batch[j].lastReportAt
  {
    hide IsNewest;
    LatestIsNewest(batch, a);
    LatestMeansSeen(batch, a);
    FirstSeenIsEarliest(batch, a);
    assert Lookup(after.tracks, a) == RowAfter(Lookup(before.tracks, a), batch, a);
    var k: nat :| k < |batch| && batch[k] == LatestIn(batch, a).value && IsNewest(batch, a, k);
    assert ShowsUpdate(after.tracks[a], batch[k]);
  }

  predicate ShowsUpdate(row: TrackRow, u: TrackUpdate) {
    row.lastSeenAt == u.updatedAt && row.state == u.state && row.updateCount == u.updateCount
      && row.callsign == u.callsign
  }

  // ----- Writing twice -----

  /** Recording a batch a second time at once changes neither table. */
  lemma RecordingTwiceIsOnce(before: Tables, batch: seq<TrackUpdate>, once: Tables, twice: Tables)
    requires RecordedTo(before, batch, once) && RecordedTo(once, batch, twice)
    ensures twice == once
  {
    forall a ensures Lookup(twice.tracks, a) == Lookup(once.tracks, a) {
      LatestMeansSeen(batch, a);
    }
    SameLookups(twice.tracks, once.tracks);
    forall k ensures Lookup(twice.points, k) == Lookup(once.points, k) {}
    SameLookups(twice.points, once.points);
  }

  lemma SameLookups<K(!new), V>(m: map<K, V>, n: map<K, V>)
    requires forall k :: Lookup(m, k) == Lookup(n, k)
    ensures m == n
  {
    forall k ensures k in m <==> k in n { assert Lookup(m, k) == Lookup(n, k); }
    forall k | k in m ensures m[k] == n[k] { assert Lookup(m, k) == Lookup(n, k); }
  }

  /** A run of batches, each recorded in turn. */
  ghost predicate History(tables: seq<Tables>, batches: seq<seq<TrackUpdate>>) {
    |tables| == |batches| + 1 && forall i :: 0 <= i < |batches| ==> RecordedTo(tables[i], batches[i], tables[i + 1])
  }

  /** A point, once recorded, never changes, and a track never changes when it was first seen. */
  lemma {:induction false} RecordedPointsNeverChange(tables: seq<Tables>, batches: seq<seq<TrackUpdate>>, i: nat,
                                                     j: nat)
    requires History(tables, batches) && i <= j < |tables|
    ensures forall k :: k in tables[i].points ==> k in tables[j].points && tables[j].points[k] == tables[i].points[k]
    ensures forall a :: a in tables[i].tracks ==>
      a in tables[j].tracks && tables[j].tracks[a].firstSeenAt == tables[i].tracks[a].firstSeenAt
  {
    if i < j {
      RecordedPointsNeverChange(tables, batches, i, j - 1);
      assert RecordedTo(tables[j - 1], batches[j - 1], tables[j]);
      forall k | k in tables[i].points ensures k in tables[j].points && tables[j].points[k] == tables[i].points[k] {
        assert Lookup(tables[j].points, k) == PointAfter(Lookup(tables[j - 1].points, k), batches[j - 1], k);
      }
      forall a | a in tables[i].tracks
        ensures a in tables[j].tracks && tables[j].tracks[a].firstSeenAt == tables[i].tracks[a].firstSeenAt
      {
        assert Lookup(tables[j].tracks, a) == RowAfter(Lookup(tables[j - 1].tracks, a), batches[j - 1], a);
      }
    }
  }

  lemma {:induction false} EveryKeyIsRecorded(batch: seq<TrackUpdate>, k: PointKey)
    ensures PointIn(batch, k).Some? <==> exists i :: 0 <= i < |batch| && KeyOf(batch[i]) == k
    ensures PointIn(batch, k).Some? ==> PointIn(batch, k).value in batch && KeyOf(PointIn(batch, k).value) == k
  {
    if batch != [] {
      EveryKeyIsRecorded(batch[..|batch| - 1], k);
      if i :| 0 <= i < |batch| - 1 && KeyOf(batch[i]) == k { assert batch[..|batch| - 1][i] == batch[i]; }
    }
  }

  /** A batch redelivered at any later time adds no point and changes none. */
  lemma RedeliveryAddsNoPoint(tables: seq<Tables>, batches: seq<seq<TrackUpdate>>, i: nat, j: nat)
    requires History(tables, batches) && i < j < |batches| && batches[j] == batches[i]
    ensures tables[j + 1].points == tables[j].points
  {
    RecordedPointsNeverChange(tables, batches, i + 1, j);
    assert RecordedTo(tables[i], batches[i], tables[i + 1]) && RecordedTo(tables[j], batches[j], tables[j + 1]);
    forall k ensures Lookup(tables[j + 1].points, k) == Lookup(tables[j].points, k) {
      if PointIn(batches[j], k).Some? {
        assert Lookup(tables[i + 1].points, k).Some?;
        assert k in tables[i + 1].points;
      }
    }
    SameLookups(tables[j + 1].points, tables[j].points);
  }

  /** It can move a track's row back, though: after any batch the row shows that batch's newest update
      of the track, so it goes back in time exactly when that is older than what the row showed. */
  lemma RowGoesBackExactlyForOlderBatch(before: Tables, batch: seq<TrackUpdate>, after: Tables, a: Id)
    requires RecordedTo(before, batch, after) && a in before.tracks
    ensures a in after.tracks
    ensures after.tracks[a].lastSeenAt < before.tracks[a].lastSeenAt
       <==> LatestIn(batch, a).Some? && LatestIn(batch, a).value.updatedAt < before.tracks[a].lastSeenAt
  {
    assert Lookup(after.tracks, a) == RowAfter(Lookup(before.tracks, a), batch, a);
  }

  /** Two single-update batches delivered in the wrong order: the row ends at the older time, having stood
      at the newer. */
  lemma OlderBatchTakesRowBack(before: Tables, newer: TrackUpdate, older: TrackUpdate, between: Tables, after: Tables)
    requires newer.aircraft == older.aircraft && older.updatedAt < newer.updatedAt
    requires RecordedTo(before, [newer], between) && RecordedTo(between, [older], after)
    ensures var a := newer.aircraft;
      && a in between.tracks && a in after.tracks
      && between.tracks[a].lastSeenAt == newer.updatedAt && after.tracks[a].lastSeenAt == older.updatedAt
  {
    var a := newer.aircraft;
    assert [newer][..0] == [] && [older][..0] == [];
    assert Lookup(between.tracks, a) == RowAfter(Lookup(before.tracks, a), [newer], a);
    RowGoesBackExactlyForOlderBatch(between, [older], after, a);
    assert Lookup(after.tracks, a) == RowAfter(Lookup(between.tracks, a), [older], a);
  }

  /** Update `i` is the last of the batch to bear its track and time. */
  predicate IsLastOfKey(batch: seq<TrackUpdate>, i: nat) {
    i < |batch|
    && forall j :: i < j < |batch| ==>
         !(batch[j].aircraft == batch[i].aircraft && batch[j].updatedAt == batch[i].updatedAt)
  }

  lemma {:induction false} PointOfLast(batch: seq<TrackUpdate>, i: nat)
    requires IsLastOfKey(batch, i)
    ensures PointIn(batch, (batch[i].aircraft, batch[i].updatedAt)) == Some(batch[i])
  {
    var n := |batch| - 1;
    if i < n {
      assert batch[..n][i] == batch[i];
      assert forall j :: i < j < n ==> batch[..n][j] == batch[j];
      PointOfLast(batch[..n], i);
    }
  }

  /** A batch adds a point for every new pair of track and time in it, which is that of its last update to bear them,
      and no other point. */
  lemma PointsAreLastOfBatch(before: Tables, batch: seq<TrackUpdate>, after: Tables, k: PointKey)
    requires RecordedTo(before, batch, after) && k !in before.points
    ensures k in after.points <==> exists i :: 0 <= i < |batch| && batch[i].aircraft == k.0 && batch[i].updatedAt == k.1
    ensures forall i: nat :: IsLastOfKey(batch, i) && batch[i].aircraft == k.0 && batch[i].updatedAt == k.1 ==>
      k in after.points && after.points[k] == Point(batch[i].origin, batch[i].estimate)
  {
    assert Lookup(after.points, k) == PointAfter(Lookup(before.points, k), batch, k);
    EveryKeyIsRecorded(batch, k);
    if i :| 0 <= i < |batch| && batch[i].aircraft == k.0 && batch[i].updatedAt == k.1 { assert KeyOf(batch[i]) == k; }
    forall i: nat | IsLastOfKey(batch, i) && batch[i].aircraft == k.0 && batch[i].updatedAt == k.1
      ensures k in after.points && after.points[k] == Point(batch[i].origin, batch[i].estimate)
    {
      PointOfLast(batch, i);
    }
  }

  // ----- Where a batch is cut -----

  lemma {:induction false} PointInConcat(b: seq<TrackUpdate>, c: seq<TrackUpdate>, k: PointKey)
    ensures PointIn(b + c, k) == if PointIn(c, k).Some? then PointIn(c, k) else PointIn(b, k)
  {
    if c == [] {
      assert b + c == b;
    } else {
      assert (b + c)[..|b + c| - 1] == b + c[..|c| - 1];
      PointInConcat(b, c[..|c| - 1], k);
    }
  }

  /** The cut keeps both updates of a repeated key apart: they carry the same point, or the key was
      already recorded. */
  ghost predicate CutIsHarmless(before: Tables, b: seq<TrackUpdate>, c: seq<TrackUpdate>) {
    forall k :: k !in before.points && PointIn(b, k).Some? && PointIn(c, k).Some? ==>
      PointOf(PointIn(b, k).value) == PointOf(PointIn(c, k).value)
  }

  /** Within a batch the last update of a key wins, across batches the first.  So recording two batches in
      turn leaves the same points as recording them as one exactly when no new key repeats across the cut
      with a different point. */
  lemma CuttingABatch(before: Tables, b: seq<TrackUpdate>, c: seq<TrackUpdate>, half: Tables, cut: Tables,
                      whole: Tables)
    requires RecordedTo(before, b, half) && RecordedTo(half, c, cut) && RecordedTo(before, b + c, whole)
    ensures cut.points == whole.points <==> CutIsHarmless(before, b, c)
  {
    forall k
      ensures Lookup(cut.points, k) == Lookup(whole.points, k)
         <==> (k !in before.points && PointIn(b, k).Some? && PointIn(c, k).Some? ==>
                 PointOf(PointIn(b, k).value) == PointOf(PointIn(c, k).value))
    {
      PointInConcat(b, c, k);
    }
    if CutIsHarmless(before, b, c) {
      SameLookups(cut.points, whole.points);
    }
  }

  // ----- The live picture -----

  datatype LiveEntry = LiveEntry(update: TrackUpdate, expiresAt: real)

  /** The last update of a track in a batch. */
  function LastIn(updates: seq<TrackUpdate>, a: Id): (r: Option<TrackUpdate>)
    ensures r.Some? <==> exists i :: 0 <= i < |updates| && updates[i].aircraft == a
    ensures r.Some? ==> exists i :: 0 <= i < |updates| && updates[i] == r.value && r.value.aircraft == a
                                    && forall j :: i < j < |updates| ==> updates[j].aircraft != a
  {
    if updates == [] then None
    else
      var n := |updates| - 1;
      if updates[n].aircraft == a then Some(updates[n])
      else
        var before := LastIn(updates[..n], a);
        assert forall i :: 0 <= i < n ==> updates[..n][i] == updates[i];
        before
  }

  class LiveTrackStore {
    const ttlS: real
    var live: map<Id, LiveEntry>
    var index: map<Id, real>

    /** Every entry is listed in the index at its own update time. */
    ghost predicate Valid()
      reads this
    {
      && live.Keys == index.Keys
      && forall a :: a in live ==> live[a].update.aircraft == a && index[a] == live[a].update.updatedAt
    }

    constructor (ttlS: real)
      ensures Valid() && this.ttlS == ttlS && live == map[]
    {
      this.ttlS, live, index := ttlS, map[], map[];
    }

    /** Overwrite the entry of each track: the last write wins, older or not, and is kept for the time to
        live by the wall clock. */
    method Publish(updates: seq<TrackUpdate>, wall: real)
      requires Valid()
      modifies this
      ensures Valid()
      ensures forall a ::
        Lookup(live, a) == (if LastIn(updates, a).Some? then Some(LiveEntry(LastIn(updates, a).value, wall + ttlS))
                            else Lookup(old(live), a))
    {
      for i := 0 to |updates|
        invariant Valid()
        invariant forall a :: Lookup(live, a) == (if LastIn(updates[..i], a).Some?
                                                  then Some(LiveEntry(LastIn(updates[..i], a).value, wall + ttlS))
                                                  else Lookup(old(live), a))
      {
        assert updates[..i + 1][..i] == updates[..i];
        var u := updates[i];
        live := live[u.aircraft := LiveEntry(u, wall + ttlS)];
        index := index[u.aircraft := u.updatedAt];
      }
      assert updates[..|updates|] == updates;
    }

    /** Remove tracks at once rather than waiting for their time to run out. */
    method Forget(trackIds: set<Id>)
      requires Valid()
      modifies this
      ensures Valid() && live == old(live) - trackIds
    {
      live, index := live - trackIds, index - trackIds;
    }
  }
}
