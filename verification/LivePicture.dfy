/** What the tracker's sections leave in the live picture (track/runner.py, stores.py): of every aircraft
    the last update the section gives to history, and nothing once that update says the track was
    terminated. */
module LivePicture {
  import opened Prelude
  import opened Estimator
  import opened TrackStores
  import opened Tracker

  /** One aircraft's live entry after one effect.  A batch leaves its last update of the aircraft until
      `expiresAt`, as `LiveTrackStore.Publish` does, and a deletion leaves nothing. */
  function Shown(entry: Option<LiveEntry>, e: Effect, a: Id, expiresAt: real): Option<LiveEntry> {
    match e
    case LiveWritten(updates) =>
      if LastIn(updates, a).Some? then Some(LiveEntry(LastIn(updates, a).value, expiresAt)) else entry
    case LiveDeleted(gone) => if a in gone then None else entry
    case Published(_) => entry
    case Recorded(_) => entry
  }

  function ShownAfter(entry: Option<LiveEntry>, effects: seq<Effect>, a: Id, expiresAt: real): Option<LiveEntry> {
    if effects == [] then entry
    else Shown(ShownAfter(entry, effects[..|effects| - 1], a, expiresAt), effects[|effects| - 1], a, expiresAt)
  }

  /** What a section that gave this to history should leave of an aircraft: its last update in it, nothing
      if that says it was terminated, and the entry as it was if the aircraft is not in it. */
  function Leaves(entry: Option<LiveEntry>, recorded: seq<TrackUpdate>, a: Id, expiresAt: real): Option<LiveEntry> {
    var last := LastIn(recorded, a);
    if last.None? then entry
    else if last.value.state == Terminated then None
    else Some(LiveEntry(last.value, expiresAt))
  }

  lemma {:induction false} ShownConcat(entry: Option<LiveEntry>, s: seq<Effect>, t: seq<Effect>, a: Id,
                                       expiresAt: real)
    ensures ShownAfter(entry, s + t, a, expiresAt) == ShownAfter(ShownAfter(entry, s, a, expiresAt), t, a, expiresAt)
  {
    if t == [] {
      assert s + t == s;
    } else {
      assert (s + t)[..|s + t| - 1] == s + t[..|t| - 1];
      ShownConcat(entry, s, t[..|t| - 1], a, expiresAt);
      hide Shown;
    }
  }

  lemma {:induction false} LastInConcat(s: seq<TrackUpdate>, t: seq<TrackUpdate>, a: Id)
    ensures LastIn(s + t, a) == if LastIn(t, a).Some? then LastIn(t, a) else LastIn(s, a)
  {
    if t == [] {
      assert s + t == s;
    } else {
      assert (s + t)[..|s + t| - 1] == s + t[..|t| - 1];
      LastInConcat(s, t[..|t| - 1], a);
    }
  }

  lemma {:induction false} LastInWithout(batch: seq<TrackUpdate>, exclude: set<Id>, a: Id)
    ensures LastIn(Without(batch, exclude), a) == if a in exclude then None else LastIn(batch, a)
  {
    if batch != [] {
      var (before, u) := (batch[..|batch| - 1], batch[|batch| - 1]);
      LastInWithout(before, exclude, a);
      LastInConcat(Without(before, exclude), if u.aircraft in exclude then [] else [u], a);
      LastOfOne(u, a);
    }
  }

  lemma LastOfOne(u: TrackUpdate, a: Id)
    ensures LastIn([u], a) == if u.aircraft == a then Some(u) else None
    ensures LastIn([], a) == None
  {
    assert [u][..0] == [];
  }

  /** A flush shows the last buffered update of every aircraft it does not exclude. */
  lemma FlushShows(c: Core, exclude: set<Id>, entry: Option<LiveEntry>, a: Id, expiresAt: real)
    ensures ShownAfter(entry, Flush(c, exclude).effects, a, expiresAt)
         == if a !in exclude && LastIn(c.pending, a).Some? then Some(LiveEntry(LastIn(c.pending, a).value, expiresAt))
            else entry
  {
    hide LastIn;
    LastInWithout(c.pending, exclude, a);
    var live := Without(c.pending, exclude);
    if c.pending == [] {
      NothingLast(a);
    } else if live == [] {
      NothingLast(a);
      assert [Recorded(c.pending)][..0] == [];
    } else {
      var (one, two) := ([Recorded(c.pending)], [LiveWritten(live)]);
      assert one[..0] == two[..0] == [];
      ShownConcat(entry, one, two, a, expiresAt);
    }
  }

  lemma NothingLast(a: Id)
    ensures LastIn([], a) == None
  {
  }

  lemma {:induction false} AnnouncingShowsNothing(updates: seq<TrackUpdate>, entry: Option<LiveEntry>, a: Id,
                                                  expiresAt: real)
    ensures ShownAfter(entry, Announced(updates), a, expiresAt) == entry
  {
    if updates != [] {
      assert Announced(updates)[..|updates| - 1] == Announced(updates[..|updates| - 1]);
      AnnouncingShowsNothing(updates[..|updates| - 1], entry, a, expiresAt);
    }
  }

  /** Updates wait in the buffer only while their track is alive. */
  predicate NothingTerminatedWaits(c: Core) {
    forall u :: u in c.pending ==> u.state != Terminated
  }

  lemma LastIsOneOf(updates: seq<TrackUpdate>, a: Id)
    ensures LastIn(updates, a).Some? ==> LastIn(updates, a).value in updates && LastIn(updates, a).value.aircraft == a
  {
  }

  /** Handling a report shows of every aircraft what it records of it, and leaves no terminated update
      waiting. */
  lemma HandlingShows(s: Setup, batchSize: nat, c: Core, r: Report, partition: int, timeUp: bool,
                      entry: Option<LiveEntry>, a: Id, expiresAt: real)
    requires Filed(c.tracks) && NothingTerminatedWaits(c)
    ensures var o := Handle(s, batchSize, c, r, partition, timeUp);
      && NothingTerminatedWaits(o.core)
      && ShownAfter(entry, o.effects, a, expiresAt) == Leaves(entry, RecordedIn(o.effects), a, expiresAt)
  {
    hide Flush, Reported, LastIn, ShownAfter, RecordedIn, PublishedIn;
    var o := Handle(s, batchSize, c, r, partition, timeUp);
    NothingLast(a);
    if partition in c.revoked {
      NothingHappens(entry, a, expiresAt);
    } else {
      var rec := Reported(s, Lookup(c.tracks, r.aircraft), r);
      var u := Announce(rec, r.observedAt);
      ReportedFacts(s, Lookup(c.tracks, r.aircraft), r);
      var c' := c.(tracks := c.tracks[r.aircraft := rec], pending := c.pending + [u]);
      assert Announced([u]) == [Published(u)];
      AnnouncingShowsNothing([u], entry, a, expiresAt);
      AnnouncedIsPublished([u]);
      if |c'.pending| >= batchSize || timeUp {
        AnnounceAndFlush(c', [u], entry, a, expiresAt);
      } else {
        assert o.effects == Announced([u]);
      }
    }
  }

  lemma NothingHappens(entry: Option<LiveEntry>, a: Id, expiresAt: real)
    ensures ShownAfter(entry, [], a, expiresAt) == entry && RecordedIn([]) == []
  {
  }

  /** Announcing and then flushing everything, when nothing terminated is in the buffer. */
  lemma AnnounceAndFlush(c: Core, announced: seq<TrackUpdate>, entry: Option<LiveEntry>, a: Id, expiresAt: real)
    requires NothingTerminatedWaits(c)
    ensures var (effects, c') := (Announced(announced) + Flush(c, {}).effects, Flush(c, {}).core);
      && NothingTerminatedWaits(c') && RecordedIn(effects) == c.pending
      && ShownAfter(entry, effects, a, expiresAt) == Leaves(entry, c.pending, a, expiresAt)
  {
    hide Flush, LastIn, ShownAfter, RecordedIn, PublishedIn;
    FlushEffects(c, {});
    AnnouncedIsPublished(announced);
    AnnouncingShowsNothing(announced, entry, a, expiresAt);
    ShownConcat(entry, Announced(announced), Flush(c, {}).effects, a, expiresAt);
    LogsConcat(Announced(announced), Flush(c, {}).effects);
    assert [] + c.pending == c.pending;
    FlushShows(c, {}, entry, a, expiresAt);
    LastIsOneOf(c.pending, a);
  }

  /** So does sweeping: a track it terminates disappears from the live picture in the section that gives
      its last update to history. */
  lemma SweepingShows(s: Setup, c: Core, now: real, changed: seq<TrackUpdate>, entry: Option<LiveEntry>, a: Id,
                      expiresAt: real)
    requires NothingTerminatedWaits(c) && Announces(s, c.tracks, now, changed)
    ensures var o := Sweep(s, c, now, changed);
      && NothingTerminatedWaits(o.core)
      && ShownAfter(entry, o.effects, a, expiresAt) == Leaves(entry, RecordedIn(o.effects), a, expiresAt)
  {
    hide Flush, LastIn, ShownAfter, RecordedIn, PublishedIn, AllAged, TerminatedAmong, Changes, Aged;
    if changed == [] {
      NothingHappens(entry, a, expiresAt);
      NothingLast(a);
    } else {
      var c' := c.(tracks := AllAged(s, c.tracks, now), pending := c.pending + changed);
      var (gone, flush) := (TerminatedAmong(changed), Flush(c', {}).effects);
      var deletion := if gone == [] then [] else [LiveDeleted(gone)];
      FlushEffects(c', {});
      SweptEntry(c', changed, flush, entry, a, expiresAt);
      DeletionIsSilent(gone);
      AnnouncedIsPublished(changed);
      LogsConcat(Announced(changed), flush);
      LogsConcat(Announced(changed) + flush, deletion);
      assert [] + c'.pending + [] == c'.pending;
      LastInConcat(c.pending, changed, a);
      LastIsOneOf(c.pending, a);
      LastDecidesTermination(changed, a);
    }
  }

  /** The live entry after announcing, flushing and deleting. */
  lemma SweptEntry(c: Core, changed: seq<TrackUpdate>, flush: seq<Effect>, entry: Option<LiveEntry>, a: Id,
                   expiresAt: real)
    requires flush == Flush(c, {}).effects
    ensures var gone := TerminatedAmong(changed);
      var deletion := if gone == [] then [] else [LiveDeleted(gone)];
      ShownAfter(entry, Announced(changed) + flush + deletion, a, expiresAt)
      == if a in gone then None
         else if LastIn(c.pending, a).Some? then Some(LiveEntry(LastIn(c.pending, a).value, expiresAt))
         else entry
  {
    hide Flush, LastIn, TerminatedAmong;
    var gone := TerminatedAmong(changed);
    var deletion := if gone == [] then [] else [LiveDeleted(gone)];
    AnnouncingShowsNothing(changed, entry, a, expiresAt);
    ShownConcat(entry, Announced(changed), flush, a, expiresAt);
    FlushShows(c, {}, entry, a, expiresAt);
    ShownConcat(entry, Announced(changed) + flush, deletion, a, expiresAt);
    assert [LiveDeleted(gone)][..0] == [];
  }

  /** With one announcement per aircraft, an aircraft is terminated exactly if its announcement says so. */
  lemma LastDecidesTermination(changed: seq<TrackUpdate>, a: Id)
    requires forall i, j :: 0 <= i < j < |changed| ==> changed[i].aircraft != changed[j].aircraft
    ensures a in TerminatedAmong(changed)
       <==> LastIn(changed, a).Some? && LastIn(changed, a).value.state == Terminated
  {
  }

  /** Releasing partitions shows what it records of every aircraft but those on them, whose entries it
      leaves as they were. */
  lemma ReleasingShows(c: Core, partitions: set<int>, entry: Option<LiveEntry>, a: Id, expiresAt: real)
    requires NothingTerminatedWaits(c)
    ensures var o := Release(c, partitions);
      && NothingTerminatedWaits(o.core)
      && ShownAfter(entry, o.effects, a, expiresAt)
         == if a in AddressesOn(c, partitions) then entry else Leaves(entry, RecordedIn(o.effects), a, expiresAt)
  {
    hide Flush, LastIn, ShownAfter, RecordedIn, PublishedIn;
    if partitions == {} {
      NothingHappens(entry, a, expiresAt);
      NothingLast(a);
    } else {
      var c' := c.(revoked := c.revoked + partitions);
      FlushEffects(c', AddressesOn(c, partitions));
      FlushShows(c', AddressesOn(c, partitions), entry, a, expiresAt);
      LastIsOneOf(c.pending, a);
    }
  }
}
