/** The tracker (track/runner.py): its critical sections, what each one emits, and the runner object
    that carries them out. */
module Tracker {
  import opened Prelude
  import opened Estimator

  /** What a runner holds between critical sections. */
  datatype Core = Core(tracks: Tracks, pending: seq<TrackUpdate>, partitionOf: map<Id, int>, revoked: set<int>)

  /** What a runner does to the world: announce an update, write a batch to history, write updates to
      the live picture, delete tracks from it. */
  datatype Effect =
    | Published(update: TrackUpdate)
    | Recorded(batch: seq<TrackUpdate>)
    | LiveWritten(updates: seq<TrackUpdate>)
    | LiveDeleted(aircraft: seq<Id>)

  datatype Outcome = Outcome(core: Core, effects: seq<Effect>)

  const PRUNE_AFTER_S := 600.0

  /** The updates of a batch about aircraft not in `exclude`, in order. */
  function Without(batch: seq<TrackUpdate>, exclude: set<Id>): (r: seq<TrackUpdate>)
    ensures forall u :: u in r <==> u in batch && u.aircraft !in exclude
  {
    if batch == [] then []
    else
      var u := batch[|batch| - 1];
      Without(batch[..|batch| - 1], exclude) + if u.aircraft in exclude then [] else [u]
  }

  /** Write the buffer to history, and what is not excluded to the live picture. */
  function Flush(c: Core, exclude: set<Id>): Outcome {
    if c.pending == [] then Outcome(c, [])
    else
      var live := Without(c.pending, exclude);
      Outcome(c.(pending := []), [Recorded(c.pending)] + if live == [] then [] else [LiveWritten(live)])
  }

  /** The note of the partition a report arrived on, taken before the handler's section. */
  function Noted(c: Core, a: Id, partition: int): Core {
    c.(partitionOf := c.partitionOf[a := partition])
  }

  /** One report: discarded if its partition is revoked, otherwise folded in, announced and buffered. */
  function Handle(s: Setup, batchSize: nat, c: Core, r: Report, partition: int, timeUp: bool): Outcome {
    if partition in c.revoked then Outcome(c, [])
    else
      var rec := Reported(s, Lookup(c.tracks, r.aircraft), r);
      var u := Announce(rec, r.observedAt);
      var c' := c.(tracks := c.tracks[r.aircraft := rec], pending := c.pending + [u]);
      var o := if |c'.pending| >= batchSize || timeUp then Flush(c', {}) else Outcome(c', []);
      Outcome(o.core, [Published(u)] + o.effects)
  }

  function Announced(updates: seq<TrackUpdate>): (r: seq<Effect>)
    ensures |r| == |updates| && forall i :: 0 <= i < |r| ==> r[i] == Published(updates[i])
  {
    seq(|updates|, i requires 0 <= i < |updates| => Published(updates[i]))
  }

  function TerminatedAmong(updates: seq<TrackUpdate>): (r: seq<Id>)
    ensures forall a :: a in r <==>
      exists i :: 0 <= i < |updates| && updates[i].state == Terminated && updates[i].aircraft == a
  {
    if updates == [] then []
    else
      var u := updates[|updates| - 1];
      TerminatedAmong(updates[..|updates| - 1]) + if u.state == Terminated then [u.aircraft] else []
  }

  /** Drop tracks terminated long ago, and the partition notes of every aircraft no longer known. */
  function ForgetPruned(c: Core, now: real): Core {
    var tracks := Pruned(c.tracks, now, PRUNE_AFTER_S);
    c.(tracks := tracks, partitionOf := map a | a in c.partitionOf && a in tracks :: c.partitionOf[a])
  }

  /** A sweep whose estimator announced `changed`. */
  function Sweep(s: Setup, c: Core, now: real, changed: seq<TrackUpdate>): Outcome {
    var aged := c.(tracks := AllAged(s, c.tracks, now));
    if changed == [] then Outcome(ForgetPruned(aged, now), [])
    else
      var o := Flush(aged.(pending := c.pending + changed), {});
      var gone := TerminatedAmong(changed);
      Outcome(ForgetPruned(o.core, now),
              Announced(changed) + o.effects + if gone == [] then [] else [LiveDeleted(gone)])
  }

  function AddressesOn(c: Core, partitions: set<int>): (r: set<Id>)
    ensures forall a :: a in r <==> a in c.partitionOf && c.partitionOf[a] in partitions
  {
    set a | a in c.partitionOf && c.partitionOf[a] in partitions
  }

  /** Giving up partitions: buffered history is written, nothing about their aircraft goes to the live
      picture, and their tracks are dropped without an announcement. */
  function Release(c: Core, partitions: set<int>): Outcome {
    if partitions == {} then Outcome(c, [])
    else
      var addresses := AddressesOn(c, partitions);
      var o := Flush(c.(revoked := c.revoked + partitions), addresses);
      Outcome(o.core.(tracks := c.tracks - addresses, partitionOf := c.partitionOf - addresses), o.effects)
  }

  function Claim(c: Core, partitions: set<int>): Core {
    c.(revoked := c.revoked - partitions)
  }

  // ----- Nothing lost, duplicated or reordered -----

  function PublishedIn(effects: seq<Effect>): seq<TrackUpdate> {
    if effects == [] then []
    else
      var e := effects[|effects| - 1];
      PublishedIn(effects[..|effects| - 1]) + if e.Published? then [e.update] else []
  }

  function RecordedIn(effects: seq<Effect>): seq<TrackUpdate> {
    if effects == [] then []
    else
      var e := effects[|effects| - 1];
      RecordedIn(effects[..|effects| - 1]) + if e.Recorded? then e.batch else []
  }

  lemma {:induction false} LogsConcat(a: seq<Effect>, b: seq<Effect>)
    ensures PublishedIn(a + b) == PublishedIn(a) + PublishedIn(b)
    ensures RecordedIn(a + b) == RecordedIn(a) + RecordedIn(b)
  {
    hide PublishedIn, RecordedIn;
    if b == [] {
      assert a + b == a;
      NothingLogged();
    } else {
      var (rest, e) := (b[..|b| - 1], b[|b| - 1]);
      LogsConcat(a, rest);
      assert a + b == (a + rest) + [e] && b == rest + [e];
      LogsAppend(a + rest, e);
      LogsAppend(rest, e);
    }
  }

  lemma NothingLogged()
    ensures PublishedIn([]) == [] && RecordedIn([]) == []
  {
  }

  lemma LogsAppend(log: seq<Effect>, e: Effect)
    ensures PublishedIn(log + [e]) == PublishedIn(log) + if e.Published? then [e.update] else []
    ensures RecordedIn(log + [e]) == RecordedIn(log) + if e.Recorded? then e.batch else []
  {
    assert (log + [e])[..|log|] == log;
  }

  lemma {:induction false} AnnouncedIsPublished(updates: seq<TrackUpdate>)
    ensures PublishedIn(Announced(updates)) == updates && RecordedIn(Announced(updates)) == []
  {
    if updates != [] {
      var shorter := updates[..|updates| - 1];
      AnnouncedIsPublished(shorter);
      assert Announced(updates)[..|updates| - 1] == Announced(shorter);
    }
  }

  /** Everything announced so far is what history has, followed by what is still buffered. */
  ghost predicate Conserved(log: seq<Effect>, pending: seq<TrackUpdate>) {
    PublishedIn(log) == RecordedIn(log) + pending
  }

  /** A section that announces `added` and moves what is no longer pending to history keeps the books. */
  lemma ConservedBy(log: seq<Effect>, effects: seq<Effect>, before: seq<TrackUpdate>, added: seq<TrackUpdate>,
                    after: seq<TrackUpdate>)
    requires Conserved(log, before)
    requires PublishedIn(effects) == added && RecordedIn(effects) + after == before + added
    ensures Conserved(log + effects, after)
  {
    hide PublishedIn, RecordedIn;
    LogsConcat(log, effects);
    calc {
      PublishedIn(log + effects);
      RecordedIn(log) + before + added;
      RecordedIn(log) + (RecordedIn(effects) + after);
      RecordedIn(log + effects) + after;
    }
  }

  lemma FlushEffects(c: Core, exclude: set<Id>)
    ensures var o := Flush(c, exclude);
      PublishedIn(o.effects) == [] && RecordedIn(o.effects) == c.pending && o.core == c.(pending := [])
  {
    var o := Flush(c, exclude);
    if c.pending != [] {
      var (one, two) := ([Recorded(c.pending)], [LiveWritten(Without(c.pending, exclude))]);
      assert one[..0] == two[..0] == [];
      LogsConcat(one, two);
      assert o.effects == one || o.effects == one + two;
    }
  }

  lemma HandleConserves(s: Setup, batchSize: nat, c: Core, r: Report, partition: int, timeUp: bool, log: seq<Effect>)
    requires Conserved(log, c.pending)
    ensures var o := Handle(s, batchSize, c, r, partition, timeUp); Conserved(log + o.effects, o.core.pending)
  {
    hide Conserved, Flush, Reported;
    var o := Handle(s, batchSize, c, r, partition, timeUp);
    if partition in c.revoked {
      assert log + o.effects == log;
    } else {
      var rec := Reported(s, Lookup(c.tracks, r.aircraft), r);
      var u := Announce(rec, r.observedAt);
      var c' := c.(tracks := c.tracks[r.aircraft := rec], pending := c.pending + [u]);
      FlushEffects(c', {});
      AnnouncedIsPublished([u]);
      assert Announced([u]) == [Published(u)];
      LogsConcat([Published(u)], Flush(c', {}).effects);
      if |c'.pending| >= batchSize || timeUp {
        ConservedBy(log, o.effects, c.pending, [u], []);
      } else {
        assert o.effects == [Published(u)];
        ConservedBy(log, o.effects, c.pending, [u], c.pending + [u]);
      }
    }
  }

  lemma DeletionIsSilent(gone: seq<Id>)
    ensures var deletion := if gone == [] then [] else [LiveDeleted(gone)];
      PublishedIn(deletion) == [] && RecordedIn(deletion) == []
  {
    assert [LiveDeleted(gone)][..0] == [];
  }

  lemma SweepConserves(s: Setup, c: Core, now: real, changed: seq<TrackUpdate>, log: seq<Effect>)
    requires Conserved(log, c.pending)
    ensures var o := Sweep(s, c, now, changed); Conserved(log + o.effects, o.core.pending)
  {
    hide Conserved, Flush, AllAged, PublishedIn, RecordedIn, TerminatedAmong;
    var o := Sweep(s, c, now, changed);
    if changed == [] {
      assert log + o.effects == log;
    } else {
      var aged := c.(tracks := AllAged(s, c.tracks, now), pending := c.pending + changed);
      var gone := TerminatedAmong(changed);
      var deletion := if gone == [] then [] else [LiveDeleted(gone)];
      FlushEffects(aged, {});
      AnnouncedIsPublished(changed);
      LogsConcat(Announced(changed), Flush(aged, {}).effects);
      LogsConcat(Announced(changed) + Flush(aged, {}).effects, deletion);
      DeletionIsSilent(gone);
      ConservedBy(log, o.effects, c.pending, changed, []);
    }
  }

  lemma ReleaseConserves(c: Core, partitions: set<int>, log: seq<Effect>)
    requires Conserved(log, c.pending)
    ensures var o := Release(c, partitions); Conserved(log + o.effects, o.core.pending)
  {
    hide Conserved, Flush;
    var o := Release(c, partitions);
    if partitions == {} {
      assert log + o.effects == log;
    } else {
      FlushEffects(c.(revoked := c.revoked + partitions), AddressesOn(c, partitions));
      ConservedBy(log, o.effects, c.pending, [], []);
    }
  }

  // ----- When the buffer is written -----

  /** A section leaves fewer updates in the buffer than make a batch. */
  predicate Short(batchSize: nat, c: Core) {
    |c.pending| < batchSize || c.pending == []
  }

  /** A report handled writes the buffer exactly when it completes a batch or the interval has passed, and then all
      of it: to history, and to the live picture in the same section. */
  lemma HandlingWritesExactlyWhenDue(s: Setup, batchSize: nat, c: Core, r: Report, partition: int, timeUp: bool)
    requires partition !in c.revoked
    ensures var (o, u) := (Handle(s, batchSize, c, r, partition, timeUp),
                           Announce(Reported(s, Lookup(c.tracks, r.aircraft), r), r.observedAt));
      && PublishedIn(o.effects) == [u]
      && (if |c.pending| + 1 >= batchSize || timeUp then
            o.core.pending == [] && RecordedIn(o.effects) == c.pending + [u]
            && o.effects == [Published(u), Recorded(c.pending + [u]), LiveWritten(c.pending + [u])]
          else o.core.pending == c.pending + [u] && o.effects == [Published(u)])
  {
    hide Reported, Flush, PublishedIn, RecordedIn;
    var rec := Reported(s, Lookup(c.tracks, r.aircraft), r);
    var u := Announce(rec, r.observedAt);
    var c' := c.(tracks := c.tracks[r.aircraft := rec], pending := c.pending + [u]);
    FlushingAll(c');
    FlushEffects(c', {});
    AnnouncedIsPublished([u]);
    assert Announced([u]) == [Published(u)];
    LogsConcat([Published(u)], Flush(c', {}).effects);
    var o := Handle(s, batchSize, c, r, partition, timeUp);
    if |c.pending| + 1 >= batchSize || timeUp {
      assert o == Outcome(Flush(c', {}).core, [Published(u)] + Flush(c', {}).effects);
    } else {
      assert o.effects == [Published(u)];
    }
  }

  lemma FlushingAll(c: Core)
    requires c.pending != []
    ensures Flush(c, {}) == Outcome(c.(pending := []), [Recorded(c.pending), LiveWritten(c.pending)])
  {
    hide Without;
    WithoutNobody(c.pending);
  }

  lemma {:induction false} WithoutNobody(batch: seq<TrackUpdate>)
    ensures Without(batch, {}) == batch
  {
    hide Without;
    if batch == [] {
      WithoutNothing();
    } else {
      var (before, u) := (batch[..|batch| - 1], batch[|batch| - 1]);
      WithoutNobody(before);
      assert before + [u] == batch;
      KeepsLast(batch);
    }
  }

  lemma WithoutNothing()
    ensures Without([], {}) == []
  {
  }

  lemma KeepsLast(batch: seq<TrackUpdate>)
    requires batch != []
    ensures Without(batch, {}) == Without(batch[..|batch| - 1], {}) + [batch[|batch| - 1]]
  {
  }

  /** So no section ever leaves a whole batch waiting; a sweep that announces anything and a release leave nothing. */
  lemma SectionsKeepBufferShort(s: Setup, batchSize: nat, c: Core, r: Report, partition: int, timeUp: bool, now: real,
                                changed: seq<TrackUpdate>, partitions: set<int>)
    requires Short(batchSize, c)
    ensures Short(batchSize, Handle(s, batchSize, c, r, partition, timeUp).core)
    ensures Short(batchSize, Sweep(s, c, now, changed).core) && Short(batchSize, Release(c, partitions).core)
    ensures Short(batchSize, Claim(c, partitions))
    ensures changed != [] ==> Sweep(s, c, now, changed).core.pending == []
    ensures partitions != {} ==> Release(c, partitions).core.pending == []
  {
    hide Reported, AllAged, Pruned, Flush, TerminatedAmong, RecordedIn, PublishedIn;
    FlushEffects(c.(tracks := AllAged(s, c.tracks, now), pending := c.pending + changed), {});
    FlushEffects(c.(revoked := c.revoked + partitions), AddressesOn(c, partitions));
    if partition !in c.revoked { HandlingWritesExactlyWhenDue(s, batchSize, c, r, partition, timeUp); }
  }

  // ----- The runner object -----

  class TrackRunner {
    const estimator: TrackEstimator
    const batchSize: nat
    var pending: seq<TrackUpdate>
    var partitionOf: map<Id, int>
    var revoked: set<int>
    /** Everything done to the topic and the two stores, in order. */
    var log: seq<Effect>

    function State(): Core
      reads this, estimator
    {
      Core(estimator.tracks, pending, partitionOf, revoked)
    }

    /** The estimator's records are in order and no update is lost, duplicated or out of turn. */
    ghost predicate Valid()
      reads this, estimator
    {
      estimator.Valid() && Conserved(log, pending)
    }

    constructor (estimator: TrackEstimator, batchSize: nat)
      requires estimator.Valid()
      ensures Valid() && this.estimator == estimator && this.batchSize == batchSize
      ensures State() == Core(estimator.tracks, [], map[], {}) && log == []
    {
      this.estimator, this.batchSize := estimator, batchSize;
      pending, partitionOf, revoked, log := [], map[], {}, [];
    }

    /** The consumer loop's step: note where the report came from, then handle it. */
    method Consume(r: Report, partition: int, timeUp: bool)
      requires Valid()
      modifies this, estimator
      ensures Valid()
      ensures var o := Handle(estimator.setup, batchSize, Noted(old(State()), r.aircraft, partition), r, partition,
                              timeUp);
        State() == o.core && log == old(log) + o.effects
    {
      partitionOf := partitionOf[r.aircraft := partition];
      HandleReport(r, partition, timeUp);
    }

    method HandleReport(r: Report, partition: int, timeUp: bool)
      requires Valid()
      modifies this, estimator
      ensures Valid()
      ensures var o := Handle(estimator.setup, batchSize, old(State()), r, partition, timeUp);
        State() == o.core && log == old(log) + o.effects
    {
      hide Conserved, Reported, Flush;
      HandleConserves(estimator.setup, batchSize, State(), r, partition, timeUp, log);
      if partition in revoked { return; }
      var u := estimator.OnReport(r);
      log := log + [Published(u)];
      pending := pending + [u];
      if |pending| >= batchSize || timeUp {
        FlushPending({});
      }
      assert log == old(log) + Handle(estimator.setup, batchSize, old(State()), r, partition, timeUp).effects;
    }

    method FlushPending(exclude: set<Id>)
      requires estimator.Valid()
      modifies this
      ensures estimator.Valid() && var o := Flush(old(State()), exclude);
        State() == o.core && log == old(log) + o.effects
    {
      if pending == [] { return; }
      var batch := pending;
      pending := [];
      log := log + [Recorded(batch)];
      var live := Without(batch, exclude);
      if live != [] {
        log := log + [LiveWritten(live)];
      }
    }

    /** Age tracks against `now` and announce, record and display whatever changed. */
    method SweepNow(now: real) returns (ghost changed: seq<TrackUpdate>)
      requires Valid()
      modifies this, estimator
      ensures Valid() && Announces(estimator.setup, old(estimator.tracks), now, changed)
      ensures var o := Sweep(estimator.setup, old(State()), now, changed);
        State() == o.core && log == old(log) + o.effects
    {
      hide Conserved, Announces, AllAged, Flush;
      ghost var before := State();
      var updates := estimator.Sweep(now);
      changed := updates;
      SweepConserves(estimator.setup, before, now, updates, log);
      if updates == [] {
        ForgetPrunedTracks(now);
        return;
      }
      var terminated := TerminatedAmong(updates);
      PublishAll(updates);
      pending := pending + updates;
      FlushPending({});
      if terminated != [] {
        log := log + [LiveDeleted(terminated)];
      }
      ForgetPrunedTracks(now);
      assert log == old(log) + Sweep(estimator.setup, before, now, updates).effects;
    }

    method PublishAll(updates: seq<TrackUpdate>)
      modifies this`log
      ensures log == old(log) + Announced(updates)
    {
      for i := 0 to |updates|
        invariant log == old(log) + Announced(updates[..i])
      {
        assert Announced(updates[..i + 1]) == Announced(updates[..i]) + [Published(updates[i])];
        log := log + [Published(updates[i])];
      }
      assert updates[..|updates|] == updates;
    }

    method ForgetPrunedTracks(now: real)
      requires estimator.Valid()
      modifies this`partitionOf, estimator
      ensures estimator.Valid() && State() == ForgetPruned(old(State()), now)
    {
      estimator.PruneTerminated(now, PRUNE_AFTER_S);
      var gone := set a | a in partitionOf && a !in estimator.tracks;
      partitionOf := partitionOf - gone;
      assert partitionOf == ForgetPruned(old(State()), now).partitionOf;
    }

    method ReleasePartitions(partitions: set<int>)
      requires Valid()
      modifies this, estimator
      ensures Valid()
      ensures var o := Release(old(State()), partitions); State() == o.core && log == old(log) + o.effects
    {
      hide Conserved, Flush;
      ReleaseConserves(State(), partitions, log);
      if partitions == {} { return; }
      revoked := revoked + partitions;
      var addresses := AddressesOn(State(), partitions);
      FlushEffects(State(), addresses);
      FlushPending(addresses);
      estimator.Release(addresses);
      partitionOf := partitionOf - addresses;
    }

    method ClaimPartitions(partitions: set<int>)
      requires Valid()
      modifies this`revoked
      ensures Valid() && State() == Claim(old(State()), partitions) && log == old(log)
    {
      revoked := revoked - partitions;
    }
  }
}
