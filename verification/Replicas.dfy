/** Several tracker replicas under a broker that hands a partition over only after its old owner's
    release section has run (track/runner.py, ADR 0011). */
module Replicas {
  import opened Prelude
  import opened Estimator
  import opened Tracker
  import opened Ownership

  // ----- One replica, whatever the broker does -----

  ghost predicate ReplicaRun(x: Context, states: seq<Replica>, moves: seq<Move>) {
    && |states| == |moves| + 1 && states[0] == FRESH
    && forall n :: 0 <= n < |moves| ==>
         Possible(x, states[n], moves[n]) && SparesNotes(x, states[n], moves[n])
         && states[n + 1] == After(x, states[n], moves[n]).replica
  }

  lemma {:induction false} ReachedIsSound(x: Context, states: seq<Replica>, moves: seq<Move>, n: nat)
    requires ReplicaRun(x, states, moves) && n < |states|
    ensures Sound(x, states[n])
  {
    hide Sound, SparesNotes, Possible, After;
    if n == 0 {
      FreshIsSound(x);
    } else {
      ReachedIsSound(x, states, moves, n - 1);
      MovesAreSound(x, states[n - 1], moves[n - 1]);
    }
  }

  predicate ReleaseRuns(rep: Replica, m: Move, p: int) {
    m.Work? && rep.queue != [] && rep.queue[0].DoRelease? && p in rep.queue[0].partitions
  }

  predicate ClaimRuns(rep: Replica, m: Move, p: int) {
    m.Work? && rep.queue != [] && rep.queue[0].DoClaim? && p in rep.queue[0].partitions
  }

  /** What one move does to the set of revoked partitions. */
  lemma RevokedAfter(x: Context, rep: Replica, m: Move, p: int)
    requires Sound(x, rep) && Possible(x, rep, m)
    ensures p in After(x, rep, m).replica.core.revoked
       <==> ReleaseRuns(rep, m, p) || (p in rep.core.revoked && !ClaimRuns(rep, m, p))
  {
    if m.Work? {
      var (c, head) := (rep.core, rep.queue[0]);
      hide SoundCore;
      match head {
        case DoHandle(r, q) =>
          assert NoteStands(x, rep, 0) && !ClaimAhead(rep.queue, 0, q) && !ReleaseAhead(rep.queue, 0, q);
          hide Handle, Sweep, Release;
          HandleIsSound(x, c, r, m.timeUp);
        case DoSweep(now) => SweepIsSound(x, c, now, m.changed);
        case DoRelease(ps) => ReleaseIsSound(x, c, ps);
        case DoClaim(ps) =>
      }
    }
  }

  /** From a release section until the matching claim the partition stays revoked. */
  lemma {:induction false} StaysRevoked(x: Context, states: seq<Replica>, moves: seq<Move>, i: nat, j: nat, p: int)
    requires ReplicaRun(x, states, moves) && i < j < |states| && ReleaseRuns(states[i], moves[i], p)
    requires forall n :: i < n < j ==> !ClaimRuns(states[n], moves[n], p)
    ensures p in states[j].core.revoked
  {
    hide Sound, After, Possible, SparesNotes, ClaimRuns;
    ReachedIsSound(x, states, moves, j - 1);
    RevokedAfter(x, states[j - 1], moves[j - 1], p);
    assert states[j] == After(x, states[j - 1], moves[j - 1]).replica;
    if i < j - 1 { StaysRevoked(x, states, moves, i, j - 1, p); }
  }

  /** From a release section (itself included) until the matching claim section, whatever arrives and in
      whatever order, the replica announces nothing about an aircraft of the partition, touches no live
      entry of it, tracks none and has none buffered. */
  lemma SilentFromReleaseToClaim(x: Context, states: seq<Replica>, moves: seq<Move>, i: nat, j: nat, a: Id)
    requires ReplicaRun(x, states, moves) && i <= j < |moves| && ReleaseRuns(states[i], moves[i], x.home(a))
    requires forall n :: i < n < j ==> !ClaimRuns(states[n], moves[n], x.home(a))
    ensures !AnyTouches(After(x, states[j], moves[j]).effects, a)
    ensures i < j ==> a !in states[j].core.tracks && forall u :: u in states[j].core.pending ==> u.aircraft != a
  {
    hide After, AnyTouches, Possible, SparesNotes, ClaimRuns;
    ReachedIsSound(x, states, moves, j);
    if i < j {
      StaysRevoked(x, states, moves, i, j, x.home(a));
    } else {
      RevokedAfter(x, states[i], moves[i], x.home(a));
    }
    if AnyTouches(After(x, states[j], moves[j]).effects, a) { EffectsAreEntitled(x, states[j], moves[j], a); }
  }

  // ----- The pruned note -----

  /** A sweep runs while the handler of a report waits.  Afterwards the handler tracks the aircraft, and
      the note a later release relies on is still there exactly when the estimator knew the aircraft. */
  lemma NoteSurvivesExactlyForKnownAircraft(x: Context, c: Core, now: real, changed: seq<TrackUpdate>, r: Report,
                                            timeUp: bool)
    requires SoundCore(x, c) && Announces(x.setup, c.tracks, now, changed)
    requires x.home(r.aircraft) !in c.revoked && r.aircraft in c.partitionOf
    ensures var swept := Sweep(x.setup, c, now, changed).core;
      var handled := Handle(x.setup, x.batchSize, swept, r, x.home(r.aircraft), timeUp).core;
      && r.aircraft in handled.tracks
      && (r.aircraft in handled.partitionOf <==> r.aircraft in KnownAfterSweep(x, c, now))
      && (SoundCore(x, handled) <==> r.aircraft in KnownAfterSweep(x, c, now))
  {
    hide Sweep, Handle, KnownAfterSweep, Announces;
    SweepIsSound(x, c, now, changed);
    var swept := Sweep(x.setup, c, now, changed).core;
    HandleTracks(x, swept, r, timeUp);
    if r.aircraft in KnownAfterSweep(x, c, now) { HandleIsSound(x, swept, r, timeUp); }
  }

  lemma HandleTracks(x: Context, c: Core, r: Report, timeUp: bool)
    requires x.home(r.aircraft) !in c.revoked
    ensures var c' := Handle(x.setup, x.batchSize, c, r, x.home(r.aircraft), timeUp).core;
      r.aircraft in c'.tracks && c'.partitionOf == c.partitionOf && c'.revoked == c.revoked
      && c'.tracks[r.aircraft] == Reported(x.setup, Lookup(c.tracks, r.aircraft), r)
  {
    hide Reported;
  }

  // ----- Many replicas and a broker -----

  /** `owner` says which replica the broker lets act on each partition, `held` which partitions it has
      ever given to each replica. */
  datatype World = World(replicas: seq<Replica>, owner: map<int, nat>, held: seq<set<int>>)

  datatype Event =
    | Local(replica: nat, move: Move)
    | Grant(replica: nat, partitions: set<int>)
    | Revoke(replica: nat, partitions: set<int>)

  function Initial(n: nat): World {
    World(seq(n, i => FRESH), map[], seq(n, i => {}))
  }

  predicate Shaped(w: World) {
    |w.held| == |w.replicas|
  }

  /** The broker grants a partition only when nobody owns it, asks only its owner to release it, and
      delivers reports only to replicas that have at some time held their partition. */
  ghost predicate Rules(x: Context, w: World, e: Event) {
    Shaped(w) && e.replica < |w.replicas|
    && match e
       case Local(i, m) =>
         && !m.AskRelease? && !m.AskClaim? && Possible(x, w.replicas[i], m)
         && (m.Arrive? ==> x.home(m.report.aircraft) in w.held[i])
       case Grant(i, ps) => (forall p :: p in ps ==> p !in w.owner) && Possible(x, w.replicas[i], AskClaim(ps))
       case Revoke(i, ps) =>
         (forall p :: p in ps ==> p in w.owner && w.owner[p] == i) && Possible(x, w.replicas[i], AskRelease(ps))
  }

  /** The partitions whose release section this event runs. */
  function ReleasedBy(w: World, e: Event): set<int>
    requires e.replica < |w.replicas|
  {
    var rep := w.replicas[e.replica];
    if e.Local? && e.move.Work? && rep.queue != [] && rep.queue[0].DoRelease? then rep.queue[0].partitions else {}
  }

  function MoveOf(e: Event): Move {
    match e
    case Local(i, m) => m
    case Grant(i, ps) => AskClaim(ps)
    case Revoke(i, ps) => AskRelease(ps)
  }

  function Next(x: Context, w: World, e: Event): World
    requires Shaped(w) && e.replica < |w.replicas|
  {
    var i := e.replica;
    World(w.replicas[i := After(x, w.replicas[i], MoveOf(e)).replica],
          if e.Grant? then map p | p in w.owner.Keys + e.partitions :: if p in e.partitions then i else w.owner[p]
          else w.owner - ReleasedBy(w, e),
          if e.Grant? then w.held[i := w.held[i] + e.partitions] else w.held)
  }

  function EffectsOf(x: Context, w: World, e: Event): seq<Effect>
    requires e.replica < |w.replicas|
  {
    After(x, w.replicas[e.replica], MoveOf(e)).effects
  }

  // ----- What every world keeps -----

  predicate Owns(w: World, i: nat, p: int) {
    p in w.owner && w.owner[p] == i
  }

  /** A replica owns every partition it holds and has not revoked, and every partition it is about to
      release or claim; it tracks and handles only aircraft of partitions it has held. */
  ghost predicate Proper(x: Context, w: World, i: nat)
    requires Shaped(w) && i < |w.replicas|
  {
    var rep := w.replicas[i];
    && Sound(x, rep)
    && (forall p :: p in w.held[i] && p !in rep.core.revoked ==> Owns(w, i, p))
    && (forall t, p :: t in rep.queue && IsRebalance(t) && p in t.partitions ==> Owns(w, i, p))
    && (forall a :: a in rep.core.tracks ==> x.home(a) in w.held[i])
    && (forall t :: t in rep.queue && t.DoHandle? ==> x.home(t.report.aircraft) in w.held[i])
  }

  ghost predicate ProperWorld(x: Context, w: World) {
    Shaped(w) && forall i :: 0 <= i < |w.replicas| ==> Proper(x, w, i)
  }

  /** Nobody else's ownership is changed by what replica `i` does. */
  lemma OwnershipOfOthers(x: Context, w: World, e: Event, j: nat, p: int)
    requires ProperWorld(x, w) && Rules(x, w, e) && j < |w.replicas| && j != e.replica && Owns(w, j, p)
    ensures Owns(Next(x, w, e), j, p)
  {
    hide After, Sound, Possible;
    assert Proper(x, w, e.replica);
    ReleasedIsOwned(x, w, e, p);
  }

  lemma ReleasedIsOwned(x: Context, w: World, e: Event, p: int)
    requires ProperWorld(x, w) && Rules(x, w, e)
    ensures p in ReleasedBy(w, e) ==> Owns(w, e.replica, p)
  {
    hide After, Sound, Possible;
    assert Proper(x, w, e.replica);
    var rep := w.replicas[e.replica];
    if rep.queue != [] { assert rep.queue[0] in rep.queue; }
  }

  lemma OthersStayProper(x: Context, w: World, e: Event, j: nat)
    requires ProperWorld(x, w) && Rules(x, w, e) && j < |w.replicas| && j != e.replica
    ensures Proper(x, Next(x, w, e), j)
  {
    hide After, Sound, Possible, Owns, ReleasedBy;
    var (w', rep) := (Next(x, w, e), w.replicas[j]);
    assert Proper(x, w, j) && w'.replicas[j] == rep && w'.held[j] == w.held[j];
    forall p | Owns(w, j, p) ensures Owns(w', j, p) { OwnershipOfOthers(x, w, e, j, p); }
  }

  /** What the mover itself still owns. */
  lemma OwnershipOfMover(x: Context, w: World, e: Event, p: int)
    requires ProperWorld(x, w) && Rules(x, w, e)
    requires Owns(w, e.replica, p) && p !in ReleasedBy(w, e)
    ensures Owns(Next(x, w, e), e.replica, p)
  {
    hide After;
  }

  lemma QueueAfter(x: Context, rep: Replica, m: Move, t: Task)
    requires Possible(x, rep, m) && t in After(x, rep, m).replica.queue
    ensures t in rep.queue || (m.Arrive? && t == DoHandle(m.report, x.home(m.report.aircraft)))
      || (m.Tick? && t.DoSweep?) || (m.AskRelease? && t == DoRelease(m.partitions))
      || (m.AskClaim? && t == DoClaim(m.partitions))
    ensures m.Work? && rep.queue[0].DoRelease? && t.DoRelease? ==> exists k :: 0 < k < |rep.queue| && rep.queue[k] == t
  {
    hide RunTask;
    if m.Work? {
      var k :| 0 <= k < |rep.queue[1..]| && rep.queue[1..][k] == t;
      assert rep.queue[k + 1] == t;
    }
  }

  lemma TracksAfter(x: Context, rep: Replica, m: Move, a: Id)
    requires Sound(x, rep) && Possible(x, rep, m) && a in After(x, rep, m).replica.core.tracks
    ensures a in rep.core.tracks || (m.Work? && rep.queue[0].DoHandle? && rep.queue[0].report.aircraft == a)
  {
    if m.Work? {
      var (c, head) := (rep.core, rep.queue[0]);
      hide SoundCore;
      match head {
        case DoHandle(r, q) =>
          assert NoteStands(x, rep, 0) && !ClaimAhead(rep.queue, 0, q) && !ReleaseAhead(rep.queue, 0, q);
          hide Handle, Sweep, Release;
          HandleIsSound(x, c, r, m.timeUp);
        case DoSweep(now) => SweepIsSound(x, c, now, m.changed);
        case DoRelease(ps) => ReleaseIsSound(x, c, ps);
        case DoClaim(ps) =>
      }
    }
  }

  lemma HeldStaysOwned(x: Context, w: World, e: Event, p: int)
    requires ProperWorld(x, w) && Rules(x, w, e)
    requires p in Next(x, w, e).held[e.replica] && p !in Next(x, w, e).replicas[e.replica].core.revoked
    ensures Owns(Next(x, w, e), e.replica, p)
  {
    hide After, Sound, Possible;
    var (i, rep, m) := (e.replica, w.replicas[e.replica], MoveOf(e));
    assert Proper(x, w, i);
    if !(e.Grant? && p in e.partitions) {
      assert Possible(x, rep, m);
      RevokedAfter(x, rep, m, p);
      if ClaimRuns(rep, m, p) { assert rep.queue[0] in rep.queue; }
      OwnershipOfMover(x, w, e, p);
    }
  }

  lemma RebalancesStayOwned(x: Context, w: World, e: Event, t: Task, p: int)
    requires ProperWorld(x, w) && Rules(x, w, e)
    requires t in Next(x, w, e).replicas[e.replica].queue && IsRebalance(t) && p in t.partitions
    ensures Owns(Next(x, w, e), e.replica, p)
  {
    var (i, rep, m) := (e.replica, w.replicas[e.replica], MoveOf(e));
    assert Proper(x, w, i);
    assert Possible(x, rep, m);
    QueueAfter(x, rep, m, t);
    hide RunTask, SoundCore, NoteStands;
    if t in rep.queue {
      if rep.queue[0].DoRelease? { NoSecondRebalance(x, rep, t); }
      OwnershipOfMover(x, w, e, p);
    }
  }

  lemma NoSecondRebalance(x: Context, rep: Replica, t: Task)
    requires Sound(x, rep) && rep.queue != [] && rep.queue[0].DoRelease?
    ensures t in rep.queue[1..] ==> !IsRebalance(t)
  {
    if t in rep.queue[1..] {
      var k :| 0 <= k < |rep.queue[1..]| && rep.queue[1..][k] == t;
      assert rep.queue[k + 1] == t && !(IsRebalance(rep.queue[0]) && IsRebalance(rep.queue[k + 1]));
    }
  }

  lemma TracksStayHeld(x: Context, w: World, e: Event, a: Id)
    requires ProperWorld(x, w) && Rules(x, w, e) && a in Next(x, w, e).replicas[e.replica].core.tracks
    ensures x.home(a) in Next(x, w, e).held[e.replica]
  {
    hide After, Sound, Possible;
    var (i, rep, m) := (e.replica, w.replicas[e.replica], MoveOf(e));
    assert Proper(x, w, i);
    assert Possible(x, rep, m);
    TracksAfter(x, rep, m, a);
    if a !in rep.core.tracks { WorkNeedsHead(x, rep, m); assert rep.queue[0] in rep.queue; }
  }

  lemma HandlersStayHeld(x: Context, w: World, e: Event, t: Task)
    requires ProperWorld(x, w) && Rules(x, w, e)
    requires t in Next(x, w, e).replicas[e.replica].queue && t.DoHandle?
    ensures x.home(t.report.aircraft) in Next(x, w, e).held[e.replica]
  {
    hide After, Sound, Possible;
    var (i, rep, m) := (e.replica, w.replicas[e.replica], MoveOf(e));
    assert Proper(x, w, i);
    assert Possible(x, rep, m);
    QueueAfter(x, rep, m, t);
  }

  lemma MoverStaysProper(x: Context, w: World, e: Event)
    requires ProperWorld(x, w) && Rules(x, w, e) && SparesNotes(x, w.replicas[e.replica], MoveOf(e))
    ensures Proper(x, Next(x, w, e), e.replica)
  {
    hide After, Sound, Possible, SparesNotes, Owns, ReleasedBy;
    var (i, rep, m) := (e.replica, w.replicas[e.replica], MoveOf(e));
    assert Proper(x, w, i);
    assert Possible(x, rep, m);
    MovesAreSound(x, rep, m);
    var w' := Next(x, w, e);
    assert w'.replicas[i] == After(x, rep, m).replica;
    forall p | p in w'.held[i] && p !in w'.replicas[i].core.revoked ensures Owns(w', i, p) {
      HeldStaysOwned(x, w, e, p);
    }
    forall t, p | t in w'.replicas[i].queue && IsRebalance(t) && p in t.partitions ensures Owns(w', i, p) {
      RebalancesStayOwned(x, w, e, t, p);
    }
    forall a | a in w'.replicas[i].core.tracks ensures x.home(a) in w'.held[i] { TracksStayHeld(x, w, e, a); }
    forall t | t in w'.replicas[i].queue && t.DoHandle? ensures x.home(t.report.aircraft) in w'.held[i] {
      HandlersStayHeld(x, w, e, t);
    }
  }

  lemma EventsKeepProper(x: Context, w: World, e: Event)
    requires ProperWorld(x, w) && Rules(x, w, e) && SparesNotes(x, w.replicas[e.replica], MoveOf(e))
    ensures ProperWorld(x, Next(x, w, e))
  {
    hide Proper, After, Possible, SparesNotes;
    forall j | 0 <= j < |w.replicas| ensures Proper(x, Next(x, w, e), j) {
      if j == e.replica { MoverStaysProper(x, w, e); } else { OthersStayProper(x, w, e, j); }
    }
  }

  // ----- Runs of the whole system -----

  ghost predicate WorldRun(x: Context, worlds: seq<World>, events: seq<Event>) {
    && |worlds| == |events| + 1 && (exists n :: worlds[0] == Initial(n))
    && forall k :: 0 <= k < |events| ==>
         Rules(x, worlds[k], events[k]) && worlds[k + 1] == Next(x, worlds[k], events[k])
  }

  /** No sweep of the run prunes the note of an aircraft whose handler is waiting. */
  ghost predicate NotesSpared(x: Context, worlds: seq<World>, events: seq<Event>)
    requires WorldRun(x, worlds, events)
  {
    forall k :: 0 <= k < |events| ==> SparesNotes(x, worlds[k].replicas[events[k].replica], MoveOf(events[k]))
  }

  lemma InitialIsProper(x: Context, n: nat)
    ensures ProperWorld(x, Initial(n))
  {
    FreshIsSound(x);
    hide Sound;
  }

  lemma {:induction false} ReachedIsProper(x: Context, worlds: seq<World>, events: seq<Event>, k: nat)
    requires WorldRun(x, worlds, events) && NotesSpared(x, worlds, events) && k < |worlds|
    ensures ProperWorld(x, worlds[k])
  {
    hide Rules, ProperWorld, SparesNotes, Next;
    if k == 0 {
      var n :| worlds[0] == Initial(n);
      InitialIsProper(x, n);
    } else {
      ReachedIsProper(x, worlds, events, k - 1);
      RulesFit(x, worlds[k - 1], events[k - 1]);
      EventsKeepProper(x, worlds[k - 1], events[k - 1]);
    }
  }

  lemma RulesFit(x: Context, w: World, e: Event)
    requires Rules(x, w, e)
    ensures Shaped(w) && e.replica < |w.replicas|
  {
  }

  /** At most one replica holds a filter for any aircraft, and it is the owner of its partition. */
  lemma OneFilterPerAircraft(x: Context, worlds: seq<World>, events: seq<Event>, k: nat, i: nat, j: nat, a: Id)
    requires WorldRun(x, worlds, events) && NotesSpared(x, worlds, events) && k < |worlds|
    requires i < |worlds[k].replicas| && j < |worlds[k].replicas|
    requires a in worlds[k].replicas[i].core.tracks && a in worlds[k].replicas[j].core.tracks
    ensures i == j && Owns(worlds[k], i, x.home(a))
  {
    hide WorldRun, NotesSpared;
    ReachedIsProper(x, worlds, events, k);
    FilterMeansOwner(x, worlds[k], i, a);
    FilterMeansOwner(x, worlds[k], j, a);
  }

  lemma FilterMeansOwner(x: Context, w: World, i: nat, a: Id)
    requires ProperWorld(x, w) && i < |w.replicas| && a in w.replicas[i].core.tracks
    ensures Owns(w, i, x.home(a))
  {
    assert Proper(x, w, i);
  }

  /** Every announcement about an aircraft, every live write of it and every live delete is made by the
      current owner of its partition, late reports included. */
  lemma OnlyTheOwnerActs(x: Context, worlds: seq<World>, events: seq<Event>, k: nat, a: Id)
    requires WorldRun(x, worlds, events) && NotesSpared(x, worlds, events) && k < |events|
    ensures events[k].replica < |worlds[k].replicas|
    ensures AnyTouches(EffectsOf(x, worlds[k], events[k]), a) ==> Owns(worlds[k], events[k].replica, x.home(a))
  {
    hide ProperWorld, SparesNotes, Next, NotesSpared;
    ReachedIsProper(x, worlds, events, k);
    assert Rules(x, worlds[k], events[k]);
    OwnerActs(x, worlds[k], events[k], a);
  }

  lemma OwnerActs(x: Context, w: World, e: Event, a: Id)
    requires ProperWorld(x, w) && Rules(x, w, e)
    ensures AnyTouches(EffectsOf(x, w, e), a) ==> Owns(w, e.replica, x.home(a))
  {
    hide After, Sound, Possible, AnyTouches;
    var (i, rep, m) := (e.replica, w.replicas[e.replica], MoveOf(e));
    assert Proper(x, w, i);
    assert Possible(x, rep, m);
    if AnyTouches(EffectsOf(x, w, e), a) {
      EffectsAreEntitled(x, rep, m, a);
      if a !in rep.core.tracks { WorkNeedsHead(x, rep, m); assert rep.queue[0] in rep.queue; }
    }
  }

  lemma WorkNeedsHead(x: Context, rep: Replica, m: Move)
    requires Possible(x, rep, m) && m.Work?
    ensures rep.queue != []
  {
  }
}
