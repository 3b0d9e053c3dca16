/** Why the ownership theorems need the pruning condition: a run of two replicas in which a sweep
    waiting for the lock prunes the note of an aircraft whose first report is waiting behind it
    (track/runner.py). */
module PrunedNote {
  import opened Prelude
  import opened Estimator
  import opened Tracker
  import opened Ownership
  import opened Replicas

  /** Two replicas, side by side. */
  function Two(c0: Core, q0: seq<Task>, c1: Core, q1: seq<Task>, owner: map<int, nat>, held: seq<set<int>>): World {
    World([Replica(c0, q0), Replica(c1, q1)], owner, held)
  }

  ghost predicate StepTo(x: Context, w: World, e: Event, w': World) {
    Rules(x, w, e) && w' == Next(x, w, e)
  }

  const EMPTY := Core(map[], [], map[], {})

  function FirstRecord(x: Context, r: Report): TrackRecord {
    Reported(x.setup, None, r)
  }

  /** A core that tracks one aircraft, without a note of its partition. */
  function Unnoted(x: Context, r: Report): Core {
    Core(map[r.aircraft := FirstRecord(x, r)], [], map[], {})
  }

  function NotedCore(x: Context, r: Report): Core {
    Core(map[r.aircraft := FirstRecord(x, r)], [], map[r.aircraft := x.home(r.aircraft)], {})
  }

  /** A local event changes its own replica, and the ownership of what its release section gives up. */
  lemma LocalStep(x: Context, w: World, i: nat, m: Move, rep: Replica, owner: map<int, nat>)
    requires |w.replicas| == 2 && i < 2 && Rules(x, w, Local(i, m))
    requires rep == After(x, w.replicas[i], m).replica && owner == w.owner - ReleasedBy(w, Local(i, m))
    ensures StepTo(x, w, Local(i, m),
                   World(if i == 0 then [rep, w.replicas[1]] else [w.replicas[0], rep], owner, w.held))
  {
    assert w.replicas[i := rep] == if i == 0 then [rep, w.replicas[1]] else [w.replicas[0], rep];
  }

  /** Replica `i` of two is granted a partition nobody owns. */
  lemma GrantStep(x: Context, w: World, i: nat, p: int, w': World)
    requires |w.replicas| == |w.held| == |w'.replicas| == 2 && i < 2 && p !in w.owner && w.replicas[i].queue == []
    requires w'.replicas[i] == w.replicas[i].(queue := [DoClaim({p})]) && w'.replicas[1 - i] == w.replicas[1 - i]
    requires w'.owner == w.owner[p := i] && w'.held == w.held[i := w.held[i] + {p}]
    ensures StepTo(x, w, Grant(i, {p}), w')
  {
    hide Possible;
    assert [] + [DoClaim({p})] == [DoClaim({p})];
    assert Possible(x, w.replicas[i], AskClaim({p})) by { NothingWaits(x, w.replicas[i], {p}); }
    assert Next(x, w, Grant(i, {p})).replicas == w'.replicas;
    assert Next(x, w, Grant(i, {p})).owner == w'.owner;
  }

  lemma NothingWaits(x: Context, rep: Replica, ps: set<int>)
    requires rep.queue == []
    ensures Possible(x, rep, AskClaim(ps))
  {
  }

  /** Its claim section runs. */
  lemma ClaimStep(x: Context, w: World, i: nat, p: int, w': World)
    requires |w.replicas| == |w.held| == |w'.replicas| == 2 && i < 2 && w.replicas[i].queue == [DoClaim({p})]
    requires w'.replicas[i] == Replica(Claim(w.replicas[i].core, {p}), []) && w'.replicas[1 - i] == w.replicas[1 - i]
    requires w'.owner == w.owner && w'.held == w.held
    ensures StepTo(x, w, Local(i, Work([], true)), w')
  {
    assert [DoClaim({p})][1..] == [];
    assert w.owner - {} == w.owner;
    LocalStep(x, w, i, Work([], true), w'.replicas[i], w.owner);
    assert w'.replicas == if i == 0 then [w'.replicas[0], w.replicas[1]] else [w.replicas[0], w'.replicas[1]];
  }

  /** Both in turn. */
  lemma Granted(x: Context, c0: Core, c1: Core, i: nat, p: int, owner: map<int, nat>, held: seq<set<int>>)
    requires i < 2 && |held| == 2 && p !in owner
    ensures var (q0, q1) := (if i == 0 then [DoClaim({p})] else [], if i == 1 then [DoClaim({p})] else []);
      var (owner', held') := (owner[p := i], held[i := held[i] + {p}]);
      && StepTo(x, Two(c0, [], c1, [], owner, held), Grant(i, {p}), Two(c0, q0, c1, q1, owner', held'))
      && StepTo(x, Two(c0, q0, c1, q1, owner', held'), Local(i, Work([], true)),
                Two(if i == 0 then Claim(c0, {p}) else c0, [], if i == 1 then Claim(c1, {p}) else c1, [],
                    owner', held'))
  {
    hide StepTo, Claim;
    var (q0, q1) := (if i == 0 then [DoClaim({p})] else [], if i == 1 then [DoClaim({p})] else []);
    var (owner', held') := (owner[p := i], held[i := held[i] + {p}]);
    var w' := Two(c0, q0, c1, q1, owner', held');
    GrantStep(x, Two(c0, [], c1, [], owner, held), i, p, w');
    ClaimStep(x, w', i, p,
              Two(if i == 0 then Claim(c0, {p}) else c0, [], if i == 1 then Claim(c1, {p}) else c1, [], owner', held'));
  }

  /** A timer fires, then a first report arrives: the sweep asked first, so it runs first. */
  lemma SweepThenReport(x: Context, r: Report, now: real, owner: map<int, nat>, held: seq<set<int>>)
    requires |held| == 2 && x.home(r.aircraft) in held[0]
    ensures var (p, noted) := (x.home(r.aircraft), Noted(EMPTY, r.aircraft, x.home(r.aircraft)));
      && StepTo(x, Two(EMPTY, [], EMPTY, [], owner, held), Local(0, Tick(now)),
                Two(EMPTY, [DoSweep(now)], EMPTY, [], owner, held))
      && StepTo(x, Two(EMPTY, [DoSweep(now)], EMPTY, [], owner, held), Local(0, Arrive(r)),
                Two(noted, [DoSweep(now), DoHandle(r, p)], EMPTY, [], owner, held))
  {
    var (p, noted) := (x.home(r.aircraft), Noted(EMPTY, r.aircraft, x.home(r.aircraft)));
    assert [] + [DoSweep(now)] == [DoSweep(now)] && [DoSweep(now)] + [DoHandle(r, p)] == [DoSweep(now), DoHandle(r, p)];
    LocalStep(x, Two(EMPTY, [], EMPTY, [], owner, held), 0, Tick(now), Replica(EMPTY, [DoSweep(now)]), owner);
    LocalStep(x, Two(EMPTY, [DoSweep(now)], EMPTY, [], owner, held), 0, Arrive(r),
              Replica(noted, [DoSweep(now), DoHandle(r, p)]), owner);
  }

  /** The sweep knows no aircraft, so it drops the note. */
  lemma SweepDropsNote(x: Context, r: Report, now: real, owner: map<int, nat>, held: seq<set<int>>)
    requires |held| == 2
    ensures var (p, noted) := (x.home(r.aircraft), Noted(EMPTY, r.aircraft, x.home(r.aircraft)));
      StepTo(x, Two(noted, [DoSweep(now), DoHandle(r, p)], EMPTY, [], owner, held), Local(0, Work([], true)),
             Two(EMPTY, [DoHandle(r, p)], EMPTY, [], owner, held))
  {
    var (p, noted) := (x.home(r.aircraft), Noted(EMPTY, r.aircraft, x.home(r.aircraft)));
    assert Sweep(x.setup, noted, now, []).core == EMPTY;
    assert [DoSweep(now), DoHandle(r, p)][1..] == [DoHandle(r, p)];
    LocalStep(x, Two(noted, [DoSweep(now), DoHandle(r, p)], EMPTY, [], owner, held), 0, Work([], true),
              Replica(EMPTY, [DoHandle(r, p)]), owner);
  }

  /** The handler then starts a filter whose partition nobody remembers. */
  lemma ReportIsTracked(x: Context, r: Report, c: Core, c1: Core, i: nat, owner: map<int, nat>, held: seq<set<int>>)
    requires |held| == 2 && i < 2 && c.tracks == map[] && c.pending == [] && c.revoked == {}
    ensures var after := Core(map[r.aircraft := FirstRecord(x, r)], [], c.partitionOf, {});
      var h := [DoHandle(r, x.home(r.aircraft))];
      StepTo(x, if i == 0 then Two(c, h, c1, [], owner, held) else Two(c1, [], c, h, owner, held),
             Local(i, Work([], true)),
             if i == 0 then Two(after, [], c1, [], owner, held) else Two(c1, [], after, [], owner, held))
  {
    hide Reported;
    var h := [DoHandle(r, x.home(r.aircraft))];
    var after := Core(map[r.aircraft := FirstRecord(x, r)], [], c.partitionOf, {});
    var o := Handle(x.setup, x.batchSize, c, r, x.home(r.aircraft), true);
    FlushEffects(c.(tracks := map[r.aircraft := FirstRecord(x, r)],
                    pending := [Announce(FirstRecord(x, r), r.observedAt)]), {});
    assert map[][r.aircraft := FirstRecord(x, r)] == map[r.aircraft := FirstRecord(x, r)];
    assert [] + [Announce(FirstRecord(x, r), r.observedAt)] == [Announce(FirstRecord(x, r), r.observedAt)];
    assert o.core == after;
    assert h[1..] == [];
    LocalStep(x, if i == 0 then Two(c, h, c1, [], owner, held) else Two(c1, [], c, h, owner, held), i, Work([], true),
              Replica(after, []), owner);
  }

  /** So its release section finds no address to drop. */
  lemma ReleaseMissesFilter(x: Context, r: Report, owner: map<int, nat>, held: seq<set<int>>)
    requires |held| == 2 && Owns(Two(EMPTY, [], EMPTY, [], owner, held), 0, x.home(r.aircraft))
    ensures var (p, c) := (x.home(r.aircraft), Unnoted(x, r));
      && StepTo(x, Two(c, [], EMPTY, [], owner, held), Revoke(0, {p}), Two(c, [DoRelease({p})], EMPTY, [], owner, held))
      && StepTo(x, Two(c, [DoRelease({p})], EMPTY, [], owner, held), Local(0, Work([], true)),
                Two(c.(revoked := {p}), [], EMPTY, [], owner - {p}, held))
  {
    hide Reported;
    var (p, c) := (x.home(r.aircraft), Unnoted(x, r));
    var (w, w') := (Two(c, [], EMPTY, [], owner, held), Two(c, [DoRelease({p})], EMPTY, [], owner, held));
    assert [] + [DoRelease({p})] == [DoRelease({p})] && [DoRelease({p})][1..] == [];
    assert Next(x, w, Revoke(0, {p})).replicas == w'.replicas;
    assert Next(x, w, Revoke(0, {p})).owner == owner;
    assert AddressesOn(c, {p}) == {};
    assert {} + {p} == {p} && c.tracks - {} == c.tracks && c.partitionOf - {} == c.partitionOf;
    assert Release(c, {p}).core == c.(revoked := {p});
    LocalStep(x, w', 0, Work([], true), Replica(c.(revoked := {p}), []), owner - {p});
  }

  lemma ReportArrives(x: Context, r: Report, c0: Core, owner: map<int, nat>, held: seq<set<int>>)
    requires |held| == 2 && x.home(r.aircraft) in held[1]
    ensures StepTo(x, Two(c0, [], EMPTY, [], owner, held), Local(1, Arrive(r)),
                   Two(c0, [], Noted(EMPTY, r.aircraft, x.home(r.aircraft)), [DoHandle(r, x.home(r.aircraft))],
                       owner, held))
  {
    var p := x.home(r.aircraft);
    assert [] + [DoHandle(r, p)] == [DoHandle(r, p)];
    LocalStep(x, Two(c0, [], EMPTY, [], owner, held), 1, Arrive(r),
              Replica(Noted(EMPTY, r.aircraft, p), [DoHandle(r, p)]), owner);
  }

  /** The forgotten filter ages, and the old owner deletes the new owner's live entry. */
  lemma OldOwnerDeletes(x: Context, r: Report, now: real, c1: Core, owner: map<int, nat>, held: seq<set<int>>)
    requires |held| == 2 && now - r.observedAt >= x.setup.terminateAfterS
    ensures var c := Unnoted(x, r).(revoked := {x.home(r.aircraft)});
      var (before, changed) := (Two(c, [DoSweep(now)], c1, [], owner, held),
                                [Announce(Aged(x.setup, FirstRecord(x, r), now), now)]);
      && StepTo(x, Two(c, [], c1, [], owner, held), Local(0, Tick(now)), before)
      && Rules(x, before, Local(0, Work(changed, true)))
      && LiveDeleted([r.aircraft]) in EffectsOf(x, before, Local(0, Work(changed, true)))
  {
    hide Refreshed, Flush, Reported;
    var c := Unnoted(x, r).(revoked := {x.home(r.aircraft)});
    var rec := FirstRecord(x, r);
    FirstRecordFacts(x, r);
    AgedFacts(x, rec, now);
    assert [] + [DoSweep(now)] == [DoSweep(now)];
    LocalStep(x, Two(c, [], c1, [], owner, held), 0, Tick(now), Replica(c, [DoSweep(now)]), owner);
    SweepDeletes(x, r, c, rec, now);
  }

  lemma SweepDeletes(x: Context, r: Report, c: Core, rec: TrackRecord, now: real)
    requires c.tracks == map[r.aircraft := rec] && rec.aircraft == r.aircraft
    requires Changes(x.setup, rec, now) && Aged(x.setup, rec, now).state == Terminated
    requires Aged(x.setup, rec, now).aircraft == rec.aircraft
    ensures var changed := [Announce(Aged(x.setup, rec, now), now)];
      Announces(x.setup, c.tracks, now, changed) && LiveDeleted([r.aircraft]) in Sweep(x.setup, c, now, changed).effects
  {
    hide Aged, Changes, Flush;
    var changed := [Announce(Aged(x.setup, rec, now), now)];
    assert changed[0].aircraft == r.aircraft;
    assert changed[..0] == [];
    assert [] + [r.aircraft] == [r.aircraft];
    assert TerminatedAmong(changed) == [r.aircraft];
    var o := Sweep(x.setup, c, now, changed);
    assert o.effects[|o.effects| - 1] == LiveDeleted([r.aircraft]);
  }

  lemma FirstRecordFacts(x: Context, r: Report)
    ensures var rec := FirstRecord(x, r);
      rec.aircraft == r.aircraft && rec.lastReportAt == r.observedAt && rec.state == Initiating && !rec.terminated
  {
  }

  lemma AgedFacts(x: Context, rec: TrackRecord, now: real)
    requires rec.state == Initiating && !rec.terminated && now - rec.lastReportAt >= x.setup.terminateAfterS
    ensures Changes(x.setup, rec, now) && Aged(x.setup, rec, now).state == Terminated
    ensures Aged(x.setup, rec, now).aircraft == rec.aircraft
  {
  }

  /** Up to the hand-over: replica 0 is granted the partition, loses the note, tracks the aircraft, and
      releases the partition without noticing it. */
  lemma FirstHalf(x: Context, r: Report, now: real)
    ensures var (p, c) := (x.home(r.aircraft), Unnoted(x, r));
      var (own, none, held) := (map[p := 0], [{}, {}], [{p}, {}]);
      var (noted, handle, work) := (Noted(EMPTY, r.aircraft, p), DoHandle(r, p), Local(0, Work([], true)));
      && StepTo(x, Two(EMPTY, [], EMPTY, [], map[], none), Grant(0, {p}),
                Two(EMPTY, [DoClaim({p})], EMPTY, [], own, held))
      && StepTo(x, Two(EMPTY, [DoClaim({p})], EMPTY, [], own, held), work, Two(EMPTY, [], EMPTY, [], own, held))
      && StepTo(x, Two(EMPTY, [], EMPTY, [], own, held), Local(0, Tick(now)),
                Two(EMPTY, [DoSweep(now)], EMPTY, [], own, held))
      && StepTo(x, Two(EMPTY, [DoSweep(now)], EMPTY, [], own, held), Local(0, Arrive(r)),
                Two(noted, [DoSweep(now), handle], EMPTY, [], own, held))
      && StepTo(x, Two(noted, [DoSweep(now), handle], EMPTY, [], own, held), work,
                Two(EMPTY, [handle], EMPTY, [], own, held))
      && StepTo(x, Two(EMPTY, [handle], EMPTY, [], own, held), work, Two(c, [], EMPTY, [], own, held))
      && StepTo(x, Two(c, [], EMPTY, [], own, held), Revoke(0, {p}), Two(c, [DoRelease({p})], EMPTY, [], own, held))
      && StepTo(x, Two(c, [DoRelease({p})], EMPTY, [], own, held), work,
                Two(c.(revoked := {p}), [], EMPTY, [], map[], held))
  {
    hide StepTo, Reported;
    var p := x.home(r.aircraft);
    var (own, held) := (map[p := 0], [{p}, {}]);
    Granted(x, EMPTY, EMPTY, 0, p, map[], [{}, {}]);
    var none: seq<set<int>> := [{}, {}];
    assert none[0] + {p} == {p} && none[0 := {p}] == held && {} - {p} == {};
    SweepThenReport(x, r, now, own, held);
    SweepDropsNote(x, r, now, own, held);
    ReportIsTracked(x, r, EMPTY, EMPTY, 0, own, held);
    ReleaseMissesFilter(x, r, own, held);
    assert own - {p} == map[];
  }

  /** Replica 1 takes over and tracks the aircraft, beside the filter replica 0 forgot it had. */
  lemma SecondHalf(x: Context, r: Report, again: Report)
    requires again.aircraft == r.aircraft
    ensures var (p, lost) := (x.home(r.aircraft), Unnoted(x, r).(revoked := {x.home(r.aircraft)}));
      var (own, held0, held) := (map[p := 1], [{p}, {}], [{p}, {p}]);
      var (noted, kept, work) := (Noted(EMPTY, r.aircraft, p), NotedCore(x, again), Local(1, Work([], true)));
      && StepTo(x, Two(lost, [], EMPTY, [], map[], held0), Grant(1, {p}),
                Two(lost, [], EMPTY, [DoClaim({p})], own, held))
      && StepTo(x, Two(lost, [], EMPTY, [DoClaim({p})], own, held), work, Two(lost, [], EMPTY, [], own, held))
      && StepTo(x, Two(lost, [], EMPTY, [], own, held), Local(1, Arrive(again)),
                Two(lost, [], noted, [DoHandle(again, p)], own, held))
      && StepTo(x, Two(lost, [], noted, [DoHandle(again, p)], own, held), work, Two(lost, [], kept, [], own, held))
  {
    hide StepTo, Reported;
    var (p, lost) := (x.home(r.aircraft), Unnoted(x, r).(revoked := {x.home(r.aircraft)}));
    var (own, held) := (map[p := 1], [{p}, {p}]);
    Granted(x, lost, EMPTY, 1, p, map[], [{p}, {}]);
    var before: seq<set<int>> := [{p}, {}];
    assert before[1] + {p} == {p} && before[1 := {p}] == held && {} - {p} == {};
    ReportArrives(x, again, lost, own, held);
    ReportIsTracked(x, again, Noted(EMPTY, r.aircraft, p), lost, 1, own, held);
  }

  // ----- The run, in stretches -----

  datatype Stretch = Stretch(worlds: seq<World>, events: seq<Event>)

  ghost predicate Follows(x: Context, s: Stretch) {
    && |s.worlds| == |s.events| + 1
    && forall k :: 0 <= k < |s.events| ==> StepTo(x, s.worlds[k], s.events[k], s.worlds[k + 1])
  }

  function Join(s: Stretch, t: Stretch): Stretch
    requires t.worlds != []
  {
    Stretch(s.worlds + t.worlds[1..], s.events + t.events)
  }

  lemma JoinFollows(x: Context, s: Stretch, t: Stretch)
    requires Follows(x, s) && Follows(x, t) && s.worlds[|s.worlds| - 1] == t.worlds[0]
    ensures Follows(x, Join(s, t)) && Join(s, t).worlds[0] == s.worlds[0]
    ensures forall k :: 0 <= k < |t.events| ==>
      Join(s, t).events[|s.events| + k] == t.events[k] && Join(s, t).worlds[|s.events| + k] == t.worlds[k]
    ensures Join(s, t).worlds[|s.events| + |t.events|] == t.worlds[|t.events|]
  {
    hide StepTo;
  }

  lemma FollowsFromInitial(x: Context, s: Stretch)
    requires Follows(x, s) && s.worlds[0] == Two(EMPTY, [], EMPTY, [], map[], [{}, {}])
    ensures WorldRun(x, s.worlds, s.events)
  {
    hide Next, Possible;
    assert s.worlds[0].replicas == Initial(2).replicas && s.worlds[0].held == Initial(2).held;
    assert s.worlds[0] == Initial(2);
    forall k | 0 <= k < |s.events|
      ensures Rules(x, s.worlds[k], s.events[k]) && s.worlds[k + 1] == Next(x, s.worlds[k], s.events[k])
    {
      assert StepTo(x, s.worlds[k], s.events[k], s.worlds[k + 1]);
    }
  }

  lemma StepIs(x: Context, w: World, e: Event)
    requires Rules(x, w, e)
    ensures StepTo(x, w, e, Next(x, w, e))
  {
  }

  function FirstStretch(x: Context, r: Report, now: real): Stretch {
    var (p, c) := (x.home(r.aircraft), Unnoted(x, r));
    var (own, held, work) := (map[p := 0], [{p}, {}], Local(0, Work([], true)));
    var (noted, handle) := (Noted(EMPTY, r.aircraft, p), DoHandle(r, p));
    Stretch(
      [Two(EMPTY, [], EMPTY, [], map[], [{}, {}]), Two(EMPTY, [DoClaim({p})], EMPTY, [], own, held),
       Two(EMPTY, [], EMPTY, [], own, held), Two(EMPTY, [DoSweep(now)], EMPTY, [], own, held),
       Two(noted, [DoSweep(now), handle], EMPTY, [], own, held), Two(EMPTY, [handle], EMPTY, [], own, held),
       Two(c, [], EMPTY, [], own, held), Two(c, [DoRelease({p})], EMPTY, [], own, held),
       Two(c.(revoked := {p}), [], EMPTY, [], map[], held)],
      [Grant(0, {p}), work, Local(0, Tick(now)), Local(0, Arrive(r)), work, work, Revoke(0, {p}), work])
  }

  lemma FirstStretchFollows(x: Context, r: Report, now: real)
    ensures Follows(x, FirstStretch(x, r, now))
  {
    hide StepTo, Two, Unnoted, Noted;
    FirstHalf(x, r, now);
  }

  function SecondStretch(x: Context, r: Report, again: Report): Stretch {
    var (p, lost) := (x.home(r.aircraft), Unnoted(x, r).(revoked := {x.home(r.aircraft)}));
    var (own, held, work) := (map[p := 1], [{p}, {p}], Local(1, Work([], true)));
    Stretch(
      [Two(lost, [], EMPTY, [], map[], [{p}, {}]), Two(lost, [], EMPTY, [DoClaim({p})], own, held),
       Two(lost, [], EMPTY, [], own, held),
       Two(lost, [], Noted(EMPTY, r.aircraft, p), [DoHandle(again, p)], own, held),
       Two(lost, [], NotedCore(x, again), [], own, held)],
      [Grant(1, {p}), work, Local(1, Arrive(again)), work])
  }

  lemma SecondStretchFollows(x: Context, r: Report, again: Report)
    requires again.aircraft == r.aircraft
    ensures Follows(x, SecondStretch(x, r, again))
  {
    hide StepTo, Two, Unnoted, NotedCore, Noted;
    SecondHalf(x, r, again);
  }

  /** Replica 0 sweeps once more. */
  function LastStretch(x: Context, r: Report, again: Report, later: real): Stretch {
    var (p, lost) := (x.home(r.aircraft), Unnoted(x, r).(revoked := {x.home(r.aircraft)}));
    var (own, held, kept) := (map[p := 1], [{p}, {p}], NotedCore(x, again));
    var changed := [Announce(Aged(x.setup, FirstRecord(x, r), later), later)];
    var beforeLast := Two(lost, [DoSweep(later)], kept, [], own, held);
    Stretch([Two(lost, [], kept, [], own, held), beforeLast, Next(x, beforeLast, Local(0, Work(changed, true)))],
            [Local(0, Tick(later)), Local(0, Work(changed, true))])
  }

  lemma LastStretchFollows(x: Context, r: Report, again: Report, later: real)
    requires again.aircraft == r.aircraft && later - r.observedAt >= x.setup.terminateAfterS
    ensures var s := LastStretch(x, r, again, later);
      && Follows(x, s) && |s.worlds[1].replicas| == 2 && s.events[1].replica == 0
      && r.aircraft in s.worlds[1].replicas[0].core.tracks && r.aircraft in s.worlds[1].replicas[1].core.tracks
      && Owns(s.worlds[1], 1, x.home(r.aircraft))
      && LiveDeleted([r.aircraft]) in EffectsOf(x, s.worlds[1], s.events[1])
  {
    hide StepTo, Rules, EffectsOf, Reported, Next, Aged, Announce;
    var p := x.home(r.aircraft);
    var s := LastStretch(x, r, again, later);
    OldOwnerDeletes(x, r, later, NotedCore(x, again), map[p := 1], [{p}, {p}]);
    StepIs(x, s.worlds[1], s.events[1]);
  }

  /** The run, in full: two reports of one aircraft, three sweeps, one hand-over.  It obeys every rule of
      the broker and the lock; both replicas end with a filter for the aircraft, and the old owner
      deletes the live entry the new owner maintains. */
  lemma TwoFiltersAndAFalseDelete(x: Context, r: Report, again: Report, now: real, later: real)
    returns (worlds: seq<World>, events: seq<Event>)
    requires again.aircraft == r.aircraft && later - r.observedAt >= x.setup.terminateAfterS
    ensures WorldRun(x, worlds, events) && |events| == 14 && |worlds[13].replicas| == 2
    ensures r.aircraft in worlds[13].replicas[0].core.tracks && r.aircraft in worlds[13].replicas[1].core.tracks
    ensures Owns(worlds[13], 1, x.home(r.aircraft)) && events[13].replica == 0
    ensures LiveDeleted([r.aircraft]) in EffectsOf(x, worlds[13], events[13])
  {
    hide StepTo, Rules, EffectsOf, Next, Two, Owns, Unnoted, NotedCore, Aged, Announce, WorldRun;
    var (first, second, last) :=
      (FirstStretch(x, r, now), SecondStretch(x, r, again), LastStretch(x, r, again, later));
    FirstStretchFollows(x, r, now);
    SecondStretchFollows(x, r, again);
    LastStretchFollows(x, r, again, later);
    JoinFollows(x, first, second);
    var most := Join(first, second);
    JoinFollows(x, most, last);
    var run := Join(most, last);
    FollowsFromInitial(x, run);
    assert run.worlds[12 + 1] == last.worlds[1] && run.events[12 + 1] == last.events[1];
    worlds, events := run.worlds, run.events;
  }
}
