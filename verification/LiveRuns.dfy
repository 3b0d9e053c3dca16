/** The live picture over a run of any number of replicas (track/runner.py, stores.py): whoever acts, in
    whatever order, an aircraft's entry is its last recorded update, held for the time to live from the
    moment it was recorded, except that what a release section records is not shown. */
module LiveRuns {
  import opened Prelude
  import opened Estimator
  import opened TrackStores
  import opened Tracker
  import opened LivePicture
  import opened Ownership
  import opened Replicas

  /** A run of replicas, what each event did, and the wall time at which it happened. */
  datatype Course = Course(worlds: seq<World>, events: seq<Event>, logs: seq<seq<Effect>>, walls: seq<real>)

  ghost predicate IsCourse(x: Context, c: Course) {
    && WorldRun(x, c.worlds, c.events) && |c.logs| == |c.walls| == |c.events|
    && forall k :: 0 <= k < |c.events| ==>
         c.events[k].replica < |c.worlds[k].replicas| && c.logs[k] == EffectsOf(x, c.worlds[k], c.events[k])
  }

  /** The aircraft's entry after the first `k` events, starting from an empty picture. */
  function EntryAt(c: Course, ttlS: real, a: Id, k: nat): Option<LiveEntry>
    requires k <= |c.logs| == |c.walls|
  {
    if k == 0 then None else ShownAfter(EntryAt(c, ttlS, a, k - 1), c.logs[k - 1], a, c.walls[k - 1] + ttlS)
  }

  /** What event `j` gave to history last about the aircraft. */
  function RecordedOf(c: Course, a: Id, j: nat): Option<TrackUpdate>
    requires j < |c.logs|
  {
    LastIn(RecordedIn(c.logs[j]), a)
  }

  /** Event `j` is the last of the first `k` to have recorded anything about the aircraft. */
  predicate LastRecording(c: Course, a: Id, k: nat, j: nat) {
    j < k <= |c.logs| && RecordedOf(c, a, j).Some? && forall i :: j < i < k ==> RecordedOf(c, a, i).None?
  }

  /** Event `j` runs the release section of a partition the aircraft is noted under. */
  predicate GivesUp(c: Course, a: Id, j: nat)
    requires j < |c.events| < |c.worlds| && c.events[j].replica < |c.worlds[j].replicas|
  {
    var rep := c.worlds[j].replicas[c.events[j].replica];
    && c.events[j].Local? && c.events[j].move.Work? && rep.queue != [] && rep.queue[0].DoRelease?
    && a in AddressesOn(rep.core, rep.queue[0].partitions)
  }

  /** Records are filed and no terminated update waits in a buffer. */
  predicate Calm(c: Core) {
    Filed(c.tracks) && NothingTerminatedWaits(c)
  }

  lemma SectionShows(x: Context, c: Core, t: Task, changed: seq<TrackUpdate>, timeUp: bool, entry: Option<LiveEntry>,
                     a: Id, expiresAt: real)
    requires Calm(c) && (t.DoSweep? ==> Announces(x.setup, c.tracks, t.now, changed))
    ensures var o := RunTask(x, c, t, changed, timeUp);
      && Calm(o.core)
      && ShownAfter(entry, o.effects, a, expiresAt)
         == if t.DoRelease? && a in AddressesOn(c, t.partitions) then entry
            else Leaves(entry, RecordedIn(o.effects), a, expiresAt)
  {
    hide Flush, Reported, Aged, LastIn, ShownAfter, RecordedIn, Announces;
    match t {
      case DoHandle(r, p) =>
        HandlingShows(x.setup, x.batchSize, c, r, p, timeUp, entry, a, expiresAt);
        HandlingKeepsFiled(x, c, r, p, timeUp);
      case DoSweep(now) =>
        SweepingShows(x.setup, c, now, changed, entry, a, expiresAt);
        SweepingKeepsFiled(x, c, now, changed);
      case DoRelease(ps) =>
        ReleasingShows(c, ps, entry, a, expiresAt);
        ReleasingKeepsFiled(c, ps);
      case DoClaim(ps) =>
        NothingHappens(entry, a, expiresAt);
        NothingLast(a);
    }
  }

  lemma HandlingKeepsFiled(x: Context, c: Core, r: Report, p: int, timeUp: bool)
    requires Filed(c.tracks)
    ensures Filed(Handle(x.setup, x.batchSize, c, r, p, timeUp).core.tracks)
  {
    hide Reported, Without;
    ReportedFacts(x.setup, Lookup(c.tracks, r.aircraft), r);
  }

  lemma SweepingKeepsFiled(x: Context, c: Core, now: real, changed: seq<TrackUpdate>)
    requires Filed(c.tracks)
    ensures Filed(Sweep(x.setup, c, now, changed).core.tracks)
  {
    hide Aged, Without, AllAged, TerminatedAmong;
    AgedStaysFiled(x.setup, c.tracks, now);
  }

  lemma ReleasingKeepsFiled(c: Core, ps: set<int>)
    requires Filed(c.tracks)
    ensures Filed(Release(c, ps).core.tracks)
  {
    hide Without;
  }

  predicate CalmWorld(w: World) {
    forall i :: 0 <= i < |w.replicas| ==> Calm(w.replicas[i].core)
  }

  /** One event of one replica. */
  lemma MoveShows(x: Context, rep: Replica, m: Move, entry: Option<LiveEntry>, a: Id, expiresAt: real)
    requires Possible(x, rep, m) && Calm(rep.core)
    ensures var o := After(x, rep, m);
      && Calm(o.replica.core)
      && ShownAfter(entry, o.effects, a, expiresAt)
         == if m.Work? && rep.queue[0].DoRelease? && a in AddressesOn(rep.core, rep.queue[0].partitions) then entry
            else Leaves(entry, RecordedIn(o.effects), a, expiresAt)
  {
    hide RunTask, LastIn, ShownAfter, RecordedIn, Announces;
    if m.Work? {
      SectionShows(x, rep.core, rep.queue[0], m.changed, m.timeUp, entry, a, expiresAt);
    } else {
      NothingHappens(entry, a, expiresAt);
      NothingLast(a);
    }
  }

  lemma MoveIsPossible(x: Context, w: World, e: Event)
    requires Rules(x, w, e)
    ensures e.replica < |w.replicas| && Possible(x, w.replicas[e.replica], MoveOf(e))
  {
    hide Possible;
  }

  lemma InitialIsCalm(w: World)
    requires exists n :: w == Initial(n)
    ensures CalmWorld(w)
  {
  }

  /** What one event of the run does to the entry. */
  lemma EventShows(x: Context, c: Course, k: nat, entry: Option<LiveEntry>, a: Id, expiresAt: real)
    requires IsCourse(x, c) && k < |c.events| && CalmWorld(c.worlds[k])
    ensures CalmWorld(c.worlds[k + 1])
    ensures ShownAfter(entry, c.logs[k], a, expiresAt)
         == if GivesUp(c, a, k) then entry else Leaves(entry, RecordedIn(c.logs[k]), a, expiresAt)
  {
    hide After, Possible, Calm, ShownAfter, RecordedIn, LastIn;
    var (w, e) := (c.worlds[k], c.events[k]);
    assert Rules(x, w, e) && c.worlds[k + 1] == Next(x, w, e);
    MoveIsPossible(x, w, e);
    if MoveOf(e).Work? { WorkNeedsHead(x, w.replicas[e.replica], MoveOf(e)); }
    MoveShows(x, w.replicas[e.replica], MoveOf(e), entry, a, expiresAt);
  }

  lemma {:induction false} StaysCalm(x: Context, c: Course, k: nat, a: Id)
    requires IsCourse(x, c) && k < |c.worlds|
    ensures CalmWorld(c.worlds[k])
  {
    hide CalmWorld, Rules, Next, EffectsOf;
    if k == 0 {
      InitialIsCalm(c.worlds[0]);
    } else {
      StaysCalm(x, c, k - 1, a);
      EventShows(x, c, k - 1, None, a, 0.0);
    }
  }

  /** While nothing is recorded about the aircraft its entry stays as it is. */
  lemma {:induction false} EntryStays(x: Context, c: Course, ttlS: real, a: Id, j: nat, k: nat)
    requires IsCourse(x, c) && j <= k <= |c.events|
    requires forall i :: j <= i < k ==> RecordedOf(c, a, i).None?
    ensures EntryAt(c, ttlS, a, k) == EntryAt(c, ttlS, a, j)
  {
    hide CalmWorld, Rules, Next, EffectsOf, GivesUp, ShownAfter, RecordedIn, LastIn;
    if j < k {
      EntryStays(x, c, ttlS, a, j, k - 1);
      StaysCalm(x, c, k - 1, a);
      EventShows(x, c, k - 1, EntryAt(c, ttlS, a, k - 1), a, c.walls[k - 1] + ttlS);
      assert RecordedOf(c, a, k - 1).None?;
    }
  }

  /** Throughout any run of any number of replicas, an aircraft's entry is the last update recorded of it,
      held for the time to live from the wall time of that recording, and nothing if that update said it
      was terminated; unless a release section recorded it, which leaves the entry as it was. */
  lemma EntryIsLastRecorded(x: Context, c: Course, ttlS: real, a: Id, k: nat, j: nat)
    requires IsCourse(x, c) && k <= |c.events| && LastRecording(c, a, k, j)
    ensures var u := RecordedOf(c, a, j).value;
      EntryAt(c, ttlS, a, k)
      == if GivesUp(c, a, j) then EntryAt(c, ttlS, a, j)
         else if u.state == Terminated then None
         else Some(LiveEntry(u, c.walls[j] + ttlS))
  {
    hide CalmWorld, Rules, Next, EffectsOf, GivesUp, ShownAfter, RecordedIn, LastIn;
    StaysCalm(x, c, j, a);
    EventShows(x, c, j, EntryAt(c, ttlS, a, j), a, c.walls[j] + ttlS);
    EntryStays(x, c, ttlS, a, j + 1, k);
  }

  /** Nothing is shown of an aircraft nothing was recorded about. */
  lemma NothingRecordedNothingShown(x: Context, c: Course, ttlS: real, a: Id, k: nat)
    requires IsCourse(x, c) && k <= |c.events| && forall i :: 0 <= i < k ==> RecordedOf(c, a, i).None?
    ensures EntryAt(c, ttlS, a, k).None?
  {
    hide CalmWorld, Rules, Next, EffectsOf, ShownAfter, RecordedIn, LastIn;
    EntryStays(x, c, ttlS, a, 0, k);
  }
}
