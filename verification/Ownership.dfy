/** Who may act on an aircraft: one replica of the tracker as a machine whose critical sections wait
    for a fair lock (track/runner.py), and what it never does to an aircraft whose partition it has
    given up. */
module Ownership {
  import opened Prelude
  import opened Estimator
  import opened Tracker
  import opened KalmanUpdate
  import FilterRuns

  /** A critical section waiting for the lock.  The lock is fair: sections run in the order they asked. */
  datatype Task =
    | DoHandle(report: Report, partition: int)
    | DoSweep(now: real)
    | DoRelease(partitions: set<int>)
    | DoClaim(partitions: set<int>)

  datatype Replica = Replica(core: Core, queue: seq<Task>)

  /** What can happen to a replica: a report arrives, a timer or a rebalance callback asks for the lock,
      or the first waiting section runs.  `changed` is what a sweep's estimator announced and `timeUp`
      whether the flush interval has passed. */
  datatype Move =
    | Arrive(report: Report)
    | Tick(now: real)
    | AskRelease(partitions: set<int>)
    | AskClaim(partitions: set<int>)
    | Work(changed: seq<TrackUpdate>, timeUp: bool)

  /** Fixed surroundings: the filter settings, the batch size, and the partition the broker keeps each
      aircraft's reports on. */
  datatype Context = Context(setup: Setup, batchSize: nat, home: Id -> int)

  const FRESH := Replica(Core(map[], [], map[], {}), [])

  function RunTask(x: Context, c: Core, t: Task, changed: seq<TrackUpdate>, timeUp: bool): Outcome {
    match t
    case DoHandle(r, p) => Handle(x.setup, x.batchSize, c, r, p, timeUp)
    case DoSweep(now) => Sweep(x.setup, c, now, changed)
    case DoRelease(ps) => Release(c, ps)
    case DoClaim(ps) => Outcome(Claim(c, ps), [])
  }

  predicate IsRebalance(t: Task) {
    t.DoRelease? || t.DoClaim?
  }

  /** The consumer loop awaits each handler before taking the next report, and rebalance callbacks run
      one after another; a sweep announces what the estimator changed. */
  ghost predicate Possible(x: Context, rep: Replica, m: Move) {
    match m
    case Arrive(r) => forall i :: 0 <= i < |rep.queue| ==> !rep.queue[i].DoHandle?
    case Tick(now) => true
    case AskRelease(ps) => forall i :: 0 <= i < |rep.queue| ==> !IsRebalance(rep.queue[i])
    case AskClaim(ps) => forall i :: 0 <= i < |rep.queue| ==> !IsRebalance(rep.queue[i])
    case Work(changed, timeUp) =>
      && rep.queue != []
      && (rep.queue[0].DoSweep? ==> Announces(x.setup, rep.core.tracks, rep.queue[0].now, changed))
  }

  /** The tracks a sweep leaves: aged, and without those terminated long ago. */
  function KnownAfterSweep(x: Context, c: Core, now: real): Tracks {
    Pruned(AllAged(x.setup, c.tracks, now), now, PRUNE_AFTER_S)
  }

  /** No sweep prunes the note of an aircraft whose handler is still waiting: such an aircraft is one
      the estimator already knows. */
  ghost predicate SparesNotes(x: Context, rep: Replica, m: Move) {
    m.Work? && rep.queue != [] && rep.queue[0].DoSweep? ==>
      forall i :: 0 <= i < |rep.queue| && rep.queue[i].DoHandle? ==>
        rep.queue[i].report.aircraft in KnownAfterSweep(x, rep.core, rep.queue[0].now)
  }

  datatype Result = Result(replica: Replica, effects: seq<Effect>)

  /** The move itself.  The partition note is taken when the report arrives, before the handler has
      the lock. */
  function After(x: Context, rep: Replica, m: Move): Result {
    match m
    case Arrive(r) =>
      var p := x.home(r.aircraft);
      Result(Replica(Noted(rep.core, r.aircraft, p), rep.queue + [DoHandle(r, p)]), [])
    case Tick(now) => Result(rep.(queue := rep.queue + [DoSweep(now)]), [])
    case AskRelease(ps) => Result(rep.(queue := rep.queue + [DoRelease(ps)]), [])
    case AskClaim(ps) => Result(rep.(queue := rep.queue + [DoClaim(ps)]), [])
    case Work(changed, timeUp) =>
      if rep.queue == [] then Result(rep, [])
      else
        var o := RunTask(x, rep.core, rep.queue[0], changed, timeUp);
        Result(Replica(o.core, rep.queue[1..]), o.effects)
  }

  // ----- What every replica keeps -----

  /** Every track is noted under its home partition, which is not revoked; what is buffered concerns
      live tracks only. */
  ghost predicate SoundCore(x: Context, c: Core) {
    && Filed(c.tracks)
    && (forall a :: a in c.partitionOf ==> c.partitionOf[a] == x.home(a))
    && (forall a :: a in c.tracks ==> a in c.partitionOf && x.home(a) !in c.revoked)
    && (forall u :: u in c.pending ==> u.aircraft in c.tracks && !c.tracks[u.aircraft].terminated)
  }

  ghost predicate ClaimAhead(queue: seq<Task>, i: int, p: int) {
    exists j :: 0 <= j < i && j < |queue| && queue[j].DoClaim? && p in queue[j].partitions
  }

  ghost predicate ReleaseAhead(queue: seq<Task>, i: int, p: int) {
    exists j :: 0 <= j < i && j < |queue| && queue[j].DoRelease? && p in queue[j].partitions
  }

  /** If the handler waiting at `i` will not discard its report, the aircraft's note is in place. */
  ghost predicate NoteStands(x: Context, rep: Replica, i: nat)
    requires i < |rep.queue| && rep.queue[i].DoHandle?
  {
    var (a, p) := (rep.queue[i].report.aircraft, rep.queue[i].partition);
    && p == x.home(a)
    && ((p !in rep.core.revoked || ClaimAhead(rep.queue, i, p)) && !ReleaseAhead(rep.queue, i, p)
        ==> a in rep.core.partitionOf)
  }

  ghost predicate Sound(x: Context, rep: Replica) {
    && SoundCore(x, rep.core)
    && (forall i, j :: 0 <= i < j < |rep.queue| ==> !(rep.queue[i].DoHandle? && rep.queue[j].DoHandle?))
    && (forall i, j :: 0 <= i < j < |rep.queue| ==> !(IsRebalance(rep.queue[i]) && IsRebalance(rep.queue[j])))
    && (forall i :: 0 <= i < |rep.queue| && rep.queue[i].DoHandle? ==> NoteStands(x, rep, i))
  }

  /** The effect concerns the aircraft: an announcement about it, or a change of its live entry.
      History is a record of what was observed and is not a claim about the present. */
  predicate Touches(e: Effect, a: Id) {
    match e
    case Published(u) => u.aircraft == a
    case Recorded(batch) => false
    case LiveWritten(us) => exists i :: 0 <= i < |us| && us[i].aircraft == a
    case LiveDeleted(gone) => a in gone
  }

  ghost predicate AnyTouches(effects: seq<Effect>, a: Id) {
    exists i :: 0 <= i < |effects| && Touches(effects[i], a)
  }

  lemma FlushTouches(c: Core, exclude: set<Id>, a: Id)
    ensures AnyTouches(Flush(c, exclude).effects, a) ==> a !in exclude && exists u :: u in c.pending && u.aircraft == a
  {
  }

  lemma TouchesConcat(s: seq<Effect>, t: seq<Effect>, a: Id)
    ensures AnyTouches(s + t, a) ==> AnyTouches(s, a) || AnyTouches(t, a)
  {
  }

  // ----- Each section keeps the invariant -----

  lemma HandleIsSound(x: Context, c: Core, r: Report, timeUp: bool)
    requires SoundCore(x, c)
    requires x.home(r.aircraft) !in c.revoked ==> r.aircraft in c.partitionOf
    ensures var c' := Handle(x.setup, x.batchSize, c, r, x.home(r.aircraft), timeUp).core;
      && SoundCore(x, c') && c'.revoked == c.revoked && c'.partitionOf == c.partitionOf
      && (forall a :: a in c'.tracks ==> a in c.tracks || (a == r.aircraft && x.home(a) !in c.revoked))
  {
    hide Reported, Flush;
    var rec := Reported(x.setup, Lookup(c.tracks, r.aircraft), r);
    var c' := c.(tracks := c.tracks[r.aircraft := rec], pending := c.pending + [Announce(rec, r.observedAt)]);
    ReportedFacts(x.setup, Lookup(c.tracks, r.aircraft), r);
    FlushEffects(c', {});
  }

  lemma HandleTouches(x: Context, c: Core, r: Report, timeUp: bool, a: Id)
    requires SoundCore(x, c)
    requires AnyTouches(Handle(x.setup, x.batchSize, c, r, x.home(r.aircraft), timeUp).effects, a)
    ensures x.home(a) !in c.revoked && (a == r.aircraft || a in c.tracks)
  {
    hide Reported, Flush;
    if x.home(r.aircraft) !in c.revoked {
      var rec := Reported(x.setup, Lookup(c.tracks, r.aircraft), r);
      var u := Announce(rec, r.observedAt);
      var c' := c.(tracks := c.tracks[r.aircraft := rec], pending := c.pending + [u]);
      ReportedFacts(x.setup, Lookup(c.tracks, r.aircraft), r);
      FlushTouches(c', {}, a);
      TouchesConcat([Published(u)], Flush(c', {}).effects, a);
    }
  }

  lemma UnchangedByAge(s: Setup, rec: TrackRecord, now: real)
    requires !Changes(s, rec, now) && (rec.terminated <==> rec.state == Terminated)
    ensures Aged(s, rec, now) == rec
  {
  }

  lemma SweepIsSound(x: Context, c: Core, now: real, changed: seq<TrackUpdate>)
    requires SoundCore(x, c) && Announces(x.setup, c.tracks, now, changed)
    ensures var c' := Sweep(x.setup, c, now, changed).core;
      && SoundCore(x, c') && c'.revoked == c.revoked && c'.tracks == KnownAfterSweep(x, c, now)
      && (forall a :: a in c'.partitionOf <==> a in c.partitionOf && a in c'.tracks)
  {
    hide Aged, Sweep;
    AgedStaysFiled(x.setup, c.tracks, now);
    SweepLeaves(x, c, now, changed);
    if changed == [] {
      forall a | a in c.tracks ensures Aged(x.setup, c.tracks[a], now) == c.tracks[a] {
        UnchangedByAge(x.setup, c.tracks[a], now);
      }
    }
  }

  lemma SweepLeaves(x: Context, c: Core, now: real, changed: seq<TrackUpdate>)
    ensures var c' := Sweep(x.setup, c, now, changed).core;
      && c'.revoked == c.revoked && c'.tracks == KnownAfterSweep(x, c, now)
      && c'.pending == (if changed == [] then c.pending else [])
      && c'.partitionOf == map a | a in c.partitionOf && a in c'.tracks :: c.partitionOf[a]
  {
    hide AllAged, Pruned, Flush, TerminatedAmong;
    FlushEffects(c.(tracks := AllAged(x.setup, c.tracks, now), pending := c.pending + changed), {});
  }

  /** A sweep forgets exactly the tracks terminated, before it or by it, whose latest report is more than ten minutes
      old, and exactly the notes of aircraft it then has no track of. */
  lemma SweepForgetsExactlyTheLongGone(x: Context, c: Core, now: real, changed: seq<TrackUpdate>, a: Id)
    ensures var (c', s) := (Sweep(x.setup, c, now, changed).core, x.setup);
      && (a in c'.tracks <==>
          a in c.tracks
          && !((c.tracks[a].terminated || now - c.tracks[a].lastReportAt >= s.terminateAfterS)
               && c.tracks[a].lastReportAt < now - 600.0))
      && (a in c'.partitionOf <==> a in c.partitionOf && a in c'.tracks)
      && (a in c'.partitionOf ==> c'.partitionOf[a] == c.partitionOf[a])
  {
    hide Sweep, Aged;
    SweepLeaves(x, c, now, changed);
    if a in c.tracks { AgedEnds(x.setup, c.tracks[a], now); }
  }

  lemma AgedEnds(s: Setup, rec: TrackRecord, now: real)
    ensures var aged := Aged(s, rec, now);
      && aged.lastReportAt == rec.lastReportAt
      && (aged.terminated <==> rec.terminated || now - rec.lastReportAt >= s.terminateAfterS)
  {
    hide FilterRuns.Step, AllGood;
  }

  lemma SweepTouches(x: Context, c: Core, now: real, changed: seq<TrackUpdate>, a: Id)
    requires SoundCore(x, c) && Announces(x.setup, c.tracks, now, changed)
    requires AnyTouches(Sweep(x.setup, c, now, changed).effects, a)
    ensures x.home(a) !in c.revoked && a in c.tracks
  {
    hide Aged, Flush;
    var aged := c.(tracks := AllAged(x.setup, c.tracks, now), pending := c.pending + changed);
    if changed != [] {
      var gone := TerminatedAmong(changed);
      FlushTouches(aged, {}, a);
      TouchesConcat(Announced(changed), Flush(aged, {}).effects, a);
      TouchesConcat(Announced(changed) + Flush(aged, {}).effects, if gone == [] then [] else [LiveDeleted(gone)], a);
      assert forall u :: u in changed ==> IsAnnouncement(x.setup, c.tracks, now, u);
    }
  }

  /** Giving up partitions drops exactly the tracks and the notes of their aircraft. */
  lemma ReleaseIsSound(x: Context, c: Core, ps: set<int>)
    requires SoundCore(x, c)
    ensures var c' := Release(c, ps).core;
      && SoundCore(x, c') && c'.revoked == c.revoked + ps
      && (forall a :: a in c'.partitionOf <==> a in c.partitionOf && x.home(a) !in ps)
      && (forall a :: a in c'.tracks <==> a in c.tracks && x.home(a) !in ps)
  {
    hide Flush;
    FlushEffects(c.(revoked := c.revoked + ps), AddressesOn(c, ps));
  }

  lemma ReleaseTouches(x: Context, c: Core, ps: set<int>, a: Id)
    requires SoundCore(x, c) && AnyTouches(Release(c, ps).effects, a)
    ensures x.home(a) !in c.revoked + ps && a in c.tracks
  {
    hide Flush;
    FlushTouches(c.(revoked := c.revoked + ps), AddressesOn(c, ps), a);
  }

  // ----- Each move keeps the invariant -----

  lemma QueueGrows(x: Context, rep: Replica, t: Task, i: int)
    requires 0 <= i < |rep.queue| && rep.queue[i].DoHandle?
    requires NoteStands(x, rep, i)
    ensures NoteStands(x, rep.(queue := rep.queue + [t]), i)
  {
    var longer := rep.queue + [t];
    assert longer[i] == rep.queue[i];
    forall p ensures ClaimAhead(longer, i, p) == ClaimAhead(rep.queue, i, p) {
      if ClaimAhead(rep.queue, i, p) {
        var j :| 0 <= j < i && rep.queue[j].DoClaim? && p in rep.queue[j].partitions;
        assert longer[j] == rep.queue[j];
      }
    }
    forall p ensures ReleaseAhead(longer, i, p) == ReleaseAhead(rep.queue, i, p) {
      if ReleaseAhead(rep.queue, i, p) {
        var j :| 0 <= j < i && rep.queue[j].DoRelease? && p in rep.queue[j].partitions;
        assert longer[j] == rep.queue[j];
      }
    }
  }

  lemma AskingIsSound(x: Context, rep: Replica, m: Move)
    requires Sound(x, rep) && Possible(x, rep, m) && (m.Tick? || m.AskRelease? || m.AskClaim?)
    ensures Sound(x, After(x, rep, m).replica)
  {
    hide NoteStands, SoundCore;
    var t := if m.Tick? then DoSweep(m.now) else if m.AskRelease? then DoRelease(m.partitions)
      else DoClaim(m.partitions);
    var after := After(x, rep, m).replica;
    assert after == rep.(queue := rep.queue + [t]);
    forall i | 0 <= i < |after.queue| && after.queue[i].DoHandle? ensures NoteStands(x, after, i) {
      QueueGrows(x, rep, t, i);
    }
  }

  lemma ArrivingIsSound(x: Context, rep: Replica, m: Move)
    requires Sound(x, rep) && Possible(x, rep, m) && m.Arrive?
    ensures Sound(x, After(x, rep, m).replica)
  {
    var after := After(x, rep, m).replica;
    hide ClaimAhead, ReleaseAhead;
    assert SoundCore(x, after.core);
    forall i | 0 <= i < |after.queue| && after.queue[i].DoHandle? ensures NoteStands(x, after, i) {
      assert i == |rep.queue|;
    }
  }

  /** One waiting handler, when the section at the head of the queue has run. */
  lemma HeadRuns(x: Context, rep: Replica, m: Move, i: nat)
    requires Sound(x, rep) && Possible(x, rep, m) && SparesNotes(x, rep, m) && m.Work?
    requires i < |rep.queue| - 1 && rep.queue[i + 1].DoHandle?
    ensures NoteStands(x, After(x, rep, m).replica, i)
  {
    var after := After(x, rep, m).replica;
    var (q, q', head) := (rep.queue, rep.queue[1..], rep.queue[0]);
    var p := q[i + 1].partition;
    assert NoteStands(x, rep, i + 1);
    assert ClaimAhead(q', i, p) ==> ClaimAhead(q, i + 1, p) by {
      if j :| 0 <= j < i && j < |q'| && q'[j].DoClaim? && p in q'[j].partitions { assert q[j + 1] == q'[j]; }
    }
    assert ReleaseAhead(q, i + 1, p) ==> ReleaseAhead(q', i, p) || (head.DoRelease? && p in head.partitions) by {
      if j :| 0 <= j < i + 1 && j < |q| && q[j].DoRelease? && p in q[j].partitions {
        if j > 0 { assert q'[j - 1] == q[j]; }
      }
    }
    hide RunTask, SoundCore;
    HeadKeepsNote(x, rep, m, i);
  }

  /** What the section at the head does to revocations and notes. */
  lemma HeadKeepsNote(x: Context, rep: Replica, m: Move, i: nat)
    requires Sound(x, rep) && Possible(x, rep, m) && SparesNotes(x, rep, m) && m.Work?
    requires i < |rep.queue| - 1 && rep.queue[i + 1].DoHandle?
    ensures var (c, c', head) := (rep.core, After(x, rep, m).replica.core, rep.queue[0]);
      var (a, p) := (rep.queue[i + 1].report.aircraft, rep.queue[i + 1].partition);
      && p == x.home(a)
      && (head.DoRelease? && p in head.partitions ==> p in c'.revoked && !ClaimAhead(rep.queue[1..], i, p))
      && (p !in c'.revoked ==> p !in c.revoked || (head.DoClaim? && p in head.partitions))
      && (a in c.partitionOf && !(head.DoRelease? && p in head.partitions) ==> a in c'.partitionOf)
  {
    var (c, q, head) := (rep.core, rep.queue, rep.queue[0]);
    hide Handle, Sweep, Release;
    assert NoteStands(x, rep, i + 1);
    match head {
      case DoHandle(r, p) =>
        assert false;
      case DoSweep(now) =>
        SweepIsSound(x, c, now, m.changed);
      case DoRelease(ps) =>
        ReleaseIsSound(x, c, ps);
        forall j | 0 <= j < |q[1..]| ensures !q[1..][j].DoClaim? {
          assert q[1..][j] == q[j + 1];
          assert !(IsRebalance(q[0]) && IsRebalance(q[j + 1]));
        }
      case DoClaim(ps) =>
    }
  }

  lemma HeadCoreIsSound(x: Context, rep: Replica, m: Move)
    requires Sound(x, rep) && Possible(x, rep, m) && m.Work?
    ensures SoundCore(x, After(x, rep, m).replica.core)
  {
    var (c, head) := (rep.core, rep.queue[0]);
    match head {
      case DoHandle(r, p) =>
        assert NoteStands(x, rep, 0) && !ClaimAhead(rep.queue, 0, p) && !ReleaseAhead(rep.queue, 0, p);
        hide Handle, Sweep, Release, SoundCore;
        HandleIsSound(x, c, r, m.timeUp);
      case DoSweep(now) => SweepIsSound(x, c, now, m.changed);
      case DoRelease(ps) => ReleaseIsSound(x, c, ps);
      case DoClaim(ps) =>
    }
  }

  lemma WorkingIsSound(x: Context, rep: Replica, m: Move)
    requires Sound(x, rep) && Possible(x, rep, m) && SparesNotes(x, rep, m) && m.Work?
    ensures Sound(x, After(x, rep, m).replica)
  {
    hide RunTask, NoteStands, SoundCore;
    var after := After(x, rep, m).replica;
    HeadCoreIsSound(x, rep, m);
    assert forall i :: 0 <= i < |after.queue| ==> after.queue[i] == rep.queue[i + 1];
    forall i | 0 <= i < |after.queue| && after.queue[i].DoHandle? ensures NoteStands(x, after, i) {
      HeadRuns(x, rep, m, i);
    }
  }

  /** Every possible move that spares the notes of waiting handlers keeps the invariant. */
  lemma MovesAreSound(x: Context, rep: Replica, m: Move)
    requires Sound(x, rep) && Possible(x, rep, m) && SparesNotes(x, rep, m)
    ensures Sound(x, After(x, rep, m).replica)
  {
    hide Sound, After, SparesNotes, Possible;
    match m
    case Arrive(r) => ArrivingIsSound(x, rep, m);
    case Work(changed, timeUp) => WorkingIsSound(x, rep, m);
    case Tick(now) => AskingIsSound(x, rep, m);
    case AskRelease(ps) => AskingIsSound(x, rep, m);
    case AskClaim(ps) => AskingIsSound(x, rep, m);
  }

  lemma FreshIsSound(x: Context)
    ensures Sound(x, FRESH)
  {
  }

  /** Whatever a section does to the topic or the live picture concerns aircraft on partitions that are
      revoked neither before nor after it, and which the replica tracks or is handling. */
  lemma EffectsAreEntitled(x: Context, rep: Replica, m: Move, a: Id)
    requires Sound(x, rep) && Possible(x, rep, m) && AnyTouches(After(x, rep, m).effects, a)
    ensures m.Work? && x.home(a) !in rep.core.revoked && x.home(a) !in After(x, rep, m).replica.core.revoked
    ensures a in rep.core.tracks || (rep.queue[0].DoHandle? && rep.queue[0].report.aircraft == a)
  {
    if m.Work? {
      var (c, head) := (rep.core, rep.queue[0]);
      hide SoundCore;
      match head {
        case DoHandle(r, p) =>
          assert NoteStands(x, rep, 0) && !ClaimAhead(rep.queue, 0, p) && !ReleaseAhead(rep.queue, 0, p);
          hide Handle, Sweep, Release;
          HandleIsSound(x, c, r, m.timeUp);
          HandleTouches(x, c, r, m.timeUp, a);
        case DoSweep(now) =>
          SweepIsSound(x, c, now, m.changed);
          SweepTouches(x, c, now, m.changed, a);
        case DoRelease(ps) =>
          ReleaseIsSound(x, c, ps);
          ReleaseTouches(x, c, ps, a);
        case DoClaim(ps) =>
      }
    }
  }
}
