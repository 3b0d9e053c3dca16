/** What a track carries besides its estimate over any run of reports, sweeps and prunings (estimator.py): its codes
    and names, what its announcements say, and when it is there at all. */
module TrackLabels {
  import opened Prelude
  import opened Estimator
  import opened TrackRuns
  import opened KalmanUpdate
  import FilterRuns

  /** A text field of a report. */
  type Field = Report -> Option<string>

  const SQUAWK: Field := (r: Report) => r.squawk
  const CALLSIGN: Field := (r: Report) => r.callsign

  /** The value of the latest fresh report of the life that began at `b` to carry one, or none if none did. */
  ghost predicate IsLatestCarried(es: seq<Input>, b: nat, field: Field, value: Option<string>) {
    if value.None? then forall i: nat :: IsFresh(es, b, i) ==> field(es[i].report).None?
    else exists i: nat :: CarriedAt(es, b, field, value, i)
  }

  /** Fresh report `i` carried this, and no later one carried any. */
  ghost predicate CarriedAt(es: seq<Input>, b: nat, field: Field, value: Option<string>, i: nat) {
    && IsFresh(es, b, i) && field(es[i].report) == value
    && forall j: nat :: i < j && IsFresh(es, b, j) ==> field(es[j].report).None?
  }

  /** What a track carries, in terms of the reports of its present life. */
  ghost predicate Labelled(s: Setup, es: seq<Input>, b: nat, rec: TrackRecord)
    requires b < |es| && es[b].Heard?
  {
    var first := es[b].report;
    && IsLatestCarried(es, b, SQUAWK, rec.squawk) && IsLatestCarried(es, b, CALLSIGN, rec.callsign)
    && rec.aircraft == first.aircraft && rec.scenarioId == first.scenarioId
    && rec.origin == s.projection.origin(first.lat, first.lon)
  }

  // ----- One more input -----

  lemma BirthIsFresh(es: seq<Input>, b: nat)
    requires b < |es| && es[b].Heard?
    ensures IsFresh(es, b, b)
  {
  }

  lemma FirstCarried(es: seq<Input>, field: Field)
    requires es != [] && es[|es| - 1].Heard?
    ensures var n := |es| - 1; IsLatestCarried(es, n, field, field(es[n].report))
  {
    var n := |es| - 1;
    BirthIsFresh(es, n);
    assert CarriedAt(es, n, field, field(es[n].report), n);
  }

  /** An input that is not fresh, or carries nothing, leaves what was carried. */
  lemma StillCarried(es: seq<Input>, b: nat, field: Field, value: Option<string>)
    requires es != [] && b < |es| - 1 && IsLatestCarried(es[..|es| - 1], b, field, value)
    requires IsFresh(es, b, |es| - 1) ==> field(es[|es| - 1].report).None?
    ensures IsLatestCarried(es, b, field, value)
  {
    hide IsFresh;
    var (n, before) := (|es| - 1, es[..|es| - 1]);
    FreshBefore(es, b);
    if value.Some? {
      var i: nat :| CarriedAt(before, b, field, value, i);
      assert CarriedAt(es, b, field, value, i);
    }
  }

  lemma FreshBefore(es: seq<Input>, b: nat)
    requires es != []
    ensures forall i: nat :: IsFresh(es[..|es| - 1], b, i) ==> i < |es| - 1 && IsFresh(es, b, i)
    ensures forall i: nat :: IsFresh(es, b, i) ==> i < |es| && es[i].Heard?
    ensures forall i: nat :: IsFresh(es, b, i) && i != |es| - 1 ==> IsFresh(es[..|es| - 1], b, i)
  {
    hide IsFresh;
    var (n, before) := (|es| - 1, es[..|es| - 1]);
    forall i: nat
      ensures IsFresh(before, b, i) ==> i < n && IsFresh(es, b, i)
      ensures IsFresh(es, b, i) ==> i < |es| && es[i].Heard?
      ensures IsFresh(es, b, i) && i != n ==> IsFresh(before, b, i)
    {
      FreshRange(es, b, i);
      FreshRange(before, b, i);
      if i < n { FreshInPrefix(es, b, i); }
    }
  }

  lemma FreshRange(es: seq<Input>, b: nat, i: nat)
    ensures IsFresh(es, b, i) ==> i < |es| && es[i].Heard?
  {
  }

  lemma NewlyCarried(es: seq<Input>, b: nat, field: Field)
    requires es != [] && IsFresh(es, b, |es| - 1) && es[|es| - 1].Heard?
    requires field(es[|es| - 1].report).Some?
    ensures IsLatestCarried(es, b, field, field(es[|es| - 1].report))
  {
    hide IsFresh;
    FreshBefore(es, b);
    assert CarriedAt(es, b, field, field(es[|es| - 1].report), |es| - 1);
  }

  /** A fresh report's own value, if it carries one, and otherwise the value carried before. */
  lemma CarriedOnward(es: seq<Input>, b: nat, field: Field, before: Option<string>, after: Option<string>)
    requires es != [] && b < |es| - 1 && IsLatestCarried(es[..|es| - 1], b, field, before)
    requires IsFresh(es, b, |es| - 1) && es[|es| - 1].Heard?
    requires after == if field(es[|es| - 1].report).Some? then field(es[|es| - 1].report) else before
    ensures IsLatestCarried(es, b, field, after)
  {
    hide IsFresh, IsLatestCarried;
    if field(es[|es| - 1].report).Some? {
      NewlyCarried(es, b, field);
    } else {
      StillCarried(es, b, field, before);
    }
  }

  /** What a fresh report does to the labels. */
  lemma FreshLabels(s: Setup, rec: TrackRecord, r: Report)
    requires !rec.terminated && r.observedAt > rec.lastReportAt
    ensures var after := Reported(s, Some(rec), r);
      && after.squawk == (if r.squawk.Some? then r.squawk else rec.squawk)
      && after.callsign == (if r.callsign.Some? then r.callsign else rec.callsign)
      && after.aircraft == rec.aircraft && after.scenarioId == rec.scenarioId && after.origin == rec.origin
  {
    hide FilterRuns.Step, AllGood;
  }

  lemma FirstLabels(s: Setup, slot: Option<TrackRecord>, r: Report)
    requires slot.None? || slot.value.terminated
    ensures var rec := Reported(s, slot, r);
      && rec.squawk == r.squawk && rec.callsign == r.callsign && rec.aircraft == r.aircraft
      && rec.scenarioId == r.scenarioId && rec.origin == s.projection.origin(r.lat, r.lon)
  {
    hide FilterRuns.Step, AllGood;
  }

  lemma OtherInputsKeepLabels(s: Setup, rec: TrackRecord, e: Input)
    requires !e.Heard? && StepOf(s, Some(rec), e).Some?
    ensures var after := StepOf(s, Some(rec), e).value;
      && after.squawk == rec.squawk && after.callsign == rec.callsign && after.aircraft == rec.aircraft
      && after.scenarioId == rec.scenarioId && after.origin == rec.origin
  {
    hide FilterRuns.Step, AllGood;
  }

  /** In a life under way a report is fresh exactly when it is newer than the record's latest. */
  lemma FreshIsNewer(s: Setup, es: seq<Input>, rec: TrackRecord, b: nat, f: nat)
    requires es != [] && es[|es| - 1].Heard? && Lives(s, es[..|es| - 1], rec, b, f) && b < |es| - 1
    ensures IsFresh(es, b, |es| - 1) <==> es[|es| - 1].report.observedAt > rec.lastReportAt
  {
    var n := |es| - 1;
    assert es[..n][f] == es[f];
    if es[n].report.observedAt > rec.lastReportAt {
      forall j | b <= j < n && es[j].Heard? ensures es[j].report.observedAt < es[n].report.observedAt {
        assert es[..n][j] == es[j];
      }
    }
  }

  lemma BirthIsBefore(s: Setup, es: seq<Input>)
    requires es != [] && !Begins(s, es, |es| - 1)
    ensures Birth(s, es) == Birth(s, es[..|es| - 1]) < |es| - 1
  {
  }

  lemma LabelsOnward(s: Setup, es: seq<Input>, rec: TrackRecord, after: TrackRecord, b: nat)
    requires es != [] && b < |es| - 1 && es[b].Heard? && Labelled(s, es[..|es| - 1], b, rec)
    requires !IsFresh(es, b, |es| - 1)
    requires after.squawk == rec.squawk && after.callsign == rec.callsign && after.aircraft == rec.aircraft
    requires after.scenarioId == rec.scenarioId && after.origin == rec.origin
    ensures Labelled(s, es, b, after)
  {
    hide IsFresh, IsLatestCarried;
    StillCarried(es, b, SQUAWK, rec.squawk);
    StillCarried(es, b, CALLSIGN, rec.callsign);
  }

  lemma LabelsRenewed(s: Setup, es: seq<Input>, rec: TrackRecord, b: nat)
    requires es != [] && b < |es| - 1 && es[b].Heard? && Labelled(s, es[..|es| - 1], b, rec)
    requires es[|es| - 1].Heard? && IsFresh(es, b, |es| - 1)
    requires !rec.terminated && es[|es| - 1].report.observedAt > rec.lastReportAt
    ensures Labelled(s, es, b, Reported(s, Some(rec), es[|es| - 1].report))
  {
    hide IsFresh, IsLatestCarried, Reported;
    var r := es[|es| - 1].report;
    var after := Reported(s, Some(rec), r);
    FreshLabels(s, rec, r);
    CarriedOnward(es, b, SQUAWK, rec.squawk, after.squawk);
    CarriedOnward(es, b, CALLSIGN, rec.callsign, after.callsign);
  }

  /** Over any run a track carries the squawk and the callsign of the latest fresh report of its present life to
      carry one, and the address, scenario and tangent plane of the report that began it. */
  lemma {:induction false} TrackCarriesLatest(s: Setup, es: seq<Input>)
    requires TrackAfter(s, es).Some?
    ensures 0 <= Birth(s, es) && Labelled(s, es, Birth(s, es), TrackAfter(s, es).value)
  {
    hide StepOf, IsFresh, Begins, Lives, Labelled;
    var n := |es| - 1;
    var (slot, b) := (TrackAfter(s, es[..n]), Birth(s, es));
    var f := TrackLives(s, es);
    if Begins(s, es, n) {
      LabelsBegin(s, es);
    } else {
      StillThere(s, es);
      BirthIsBefore(s, es);
      TrackCarriesLatest(s, es[..n]);
      LabelsStep(s, es);
    }
  }

  lemma LabelsBegin(s: Setup, es: seq<Input>)
    requires es != [] && Begins(s, es, |es| - 1)
    ensures TrackAfter(s, es).Some? && Labelled(s, es, |es| - 1, TrackAfter(s, es).value)
  {
    hide Reported, IsLatestCarried, IsFresh;
    var n := |es| - 1;
    TrackUnfolds(s, es);
    FirstLabels(s, TrackAfter(s, es[..n]), es[n].report);
    FirstCarried(es, SQUAWK);
    FirstCarried(es, CALLSIGN);
  }

  lemma LabelsStep(s: Setup, es: seq<Input>)
    requires es != [] && !Begins(s, es, |es| - 1) && TrackAfter(s, es).Some?
    requires TrackAfter(s, es[..|es| - 1]).Some? && 0 <= Birth(s, es[..|es| - 1])
    requires Labelled(s, es[..|es| - 1], Birth(s, es[..|es| - 1]), TrackAfter(s, es[..|es| - 1]).value)
    ensures 0 <= Birth(s, es) && Labelled(s, es, Birth(s, es), TrackAfter(s, es).value)
  {
    hide StepOf, IsFresh, Begins, Labelled, Lives, TrackAfter, Birth;
    var n := |es| - 1;
    BirthIsBefore(s, es);
    StillThere(s, es);
    TrackUnfolds(s, es);
    var (rec, b) := (TrackAfter(s, es[..n]).value, Birth(s, es));
    var f := TrackLives(s, es[..n]);
    assert es[..n][b] == es[b];
    if es[n].Heard? {
      HeardStep(s, Some(rec), es[n]);
      FreshIsNewer(s, es, rec, b, f);
      if IsFresh(es, b, n) {
        LabelsRenewed(s, es, rec, b);
      } else {
        OldReportChangesNothing(s, rec, es[n].report);
        LabelsOnward(s, es, rec, rec, b);
      }
    } else {
      OtherInputsKeepLabels(s, rec, es[n]);
      FreshRange(es, b, n);
      LabelsOnward(s, es, rec, TrackAfter(s, es).value, b);
    }
  }

  // ----- What is announced -----

  /** The update says of the life that began at `b` what its inputs call for, as of `at`. */
  ghost predicate Tells(s: Setup, es: seq<Input>, b: nat, f: nat, at: real, u: TrackUpdate)
    requires b < |es| && es[b].Heard? && f < |es| && es[f].Heard?
  {
    var first := es[b].report;
    && IsLatestFresh(es, b, f) && u.lastReportAt == es[f].report.observedAt
    && u.updatedAt == at && u.updateCount == FreshCount(es, b) && u.state == StateOf(s, es, b, f, u.lastReportAt)
    && IsLatestCarried(es, b, SQUAWK, u.squawk) && IsLatestCarried(es, b, CALLSIGN, u.callsign)
    && u.aircraft == first.aircraft && u.scenarioId == first.scenarioId
    && u.origin == s.projection.origin(first.lat, first.lon)
    && u.estimate == FilterRuns.Run(s.tuning, InitialFilter(s, first), Ops(s, es), s.sqrt)
  }

  /** Whatever a report or a sweep announces of a track says exactly what the inputs of its present life call
      for. */
  lemma AnnouncementTells(s: Setup, es: seq<Input>, at: real) returns (f: nat)
    requires TrackAfter(s, es).Some? && AnnouncesAt(s, es, at)
    ensures 0 <= Birth(s, es) && f < |es| && es[f].Heard?
    ensures Tells(s, es, Birth(s, es), f, at, Announce(TrackAfter(s, es).value, at))
  {
    hide TrackAfter, Birth, IsLatestCarried, FreshCount, StateOf, Ops, AllGood, FilterRuns.Run, IsFresh, NoneAfter,
      InitialFilter, AnnouncesAt;
    f := TrackLives(s, es);
    FreshRange(es, Birth(s, es), f);
    TrackCarriesLatest(s, es);
    FilterIsRunOfOps(s, es);
  }

  // ----- When there is a track at all -----

  /** Input `n` drops the track: sweeps had found it silent for the termination time since its latest fresh report,
      and that report is older than the age given. */
  ghost predicate Drops(s: Setup, es: seq<Input>, n: nat)
    requires n < |es|
  {
    && es[n].Culled? && TrackAfter(s, es[..n]).Some? && 0 <= Birth(s, es[..n])
    && exists f: nat :: DropsAfter(s, es, n, f)
  }

  ghost predicate DropsAfter(s: Setup, es: seq<Input>, n: nat, f: nat)
    requires n < |es| && es[n].Culled? && 0 <= Birth(s, es[..n])
  {
    && IsLatestFresh(es[..n], Birth(s, es[..n]), f) && f < n && es[f].Heard?
    && FoundSilent(es[..n], f, es[f].report.observedAt, s.terminateAfterS)
    && es[f].report.observedAt < es[n].now - es[n].olderThanS
  }

  /** A culling drops the track exactly when it was terminated and is old enough. */
  lemma CullingDrops(s: Setup, es: seq<Input>)
    requires es != [] && es[|es| - 1].Culled? && TrackAfter(s, es[..|es| - 1]).Some?
    ensures TrackAfter(s, es).None? <==> Drops(s, es, |es| - 1)
  {
    hide TrackAfter, Birth, IsFresh, FreshCount;
    var (n, e) := (|es| - 1, es[|es| - 1]);
    var (rec, b) := (TrackAfter(s, es[..n]).value, Birth(s, es[..n]));
    TrackUnfolds(s, es);
    var f := TrackLives(s, es[..n]);
    FreshRange(es[..n], b, f);
    assert es[..n][f] == es[f];
    forall g: nat | IsLatestFresh(es[..n], b, g) ensures g == f { OneLatestFresh(es[..n], b, f, g); }
    if Prunable(rec, e.now, e.olderThanS) { assert DropsAfter(s, es, n, f); }
  }

  lemma OneLatestFresh(es: seq<Input>, b: nat, f: nat, g: nat)
    requires IsLatestFresh(es, b, f) && IsLatestFresh(es, b, g)
    ensures f == g
  {
    FreshRange(es, b, f);
    FreshRange(es, b, g);
  }

  /** No report came after input `n`. */
  predicate QuietSince(es: seq<Input>, n: int) {
    forall i :: 0 <= i < |es| && n < i ==> !es[i].Heard?
  }

  lemma DropsInPrefix(s: Setup, es: seq<Input>, m: nat, n: nat)
    requires n < m <= |es|
    ensures Drops(s, es[..m], n) == Drops(s, es, n)
  {
    hide TrackAfter, Birth, IsLatestFresh, FoundSilent;
    assert es[..m][..n] == es[..n];
    if Drops(s, es[..m], n) {
      var f: nat :| DropsAfter(s, es[..m], n, f);
      assert es[..m][f] == es[f] && DropsAfter(s, es, n, f);
    }
    if Drops(s, es, n) {
      var f: nat :| DropsAfter(s, es, n, f);
      assert es[..m][f] == es[f] && DropsAfter(s, es[..m], n, f);
    }
  }

  /** There is no track exactly when none was ever reported, or one was dropped and none reported since. */
  lemma {:induction false} GoneExactlyWhenDropped(s: Setup, es: seq<Input>)
    ensures TrackAfter(s, es).None?
       <==> QuietSince(es, -1) || exists n: nat :: n < |es| && Drops(s, es, n) && QuietSince(es, n)
  {
    hide Drops, StepOf;
    if es == [] { return; }
    var (n, before) := (|es| - 1, es[..|es| - 1]);
    GoneExactlyWhenDropped(s, before);
    forall i: nat | i < n ensures Drops(s, before, i) == Drops(s, es, i) { DropsInPrefix(s, es, n, i); }
    forall i | 0 <= i < n ensures before[i] == es[i] {}
    if es[n].Heard? {
      HeardStep(s, TrackAfter(s, before), es[n]);
      NotDropping(s, es, n);
    } else {
      forall i: int | -1 <= i < n ensures QuietSince(es, i) <==> QuietSince(before, i) { QuietInPrefix(es, i); }
      if TrackAfter(s, before).None? {
        StaysGone(s, es[n]);
        NothingToDrop(s, es, n);
      } else {
        SomeStep(s, es);
      }
    }
  }

  lemma QuietInPrefix(es: seq<Input>, i: int)
    requires es != [] && !es[|es| - 1].Heard? && -1 <= i < |es| - 1
    ensures QuietSince(es, i) <==> QuietSince(es[..|es| - 1], i)
  {
    var before := es[..|es| - 1];
    forall j | 0 <= j < |before| ensures before[j] == es[j] {}
    if QuietSince(before, i) {
      forall j | 0 <= j < |es| && i < j ensures !es[j].Heard? { if j < |before| { assert !before[j].Heard?; } }
    }
    if QuietSince(es, i) {
      forall j | 0 <= j < |before| && i < j ensures !before[j].Heard? { assert !es[j].Heard?; }
    }
  }

  lemma NotDropping(s: Setup, es: seq<Input>, n: nat)
    requires n < |es| && !es[n].Culled?
    ensures !Drops(s, es, n)
  {
  }

  lemma NothingToDrop(s: Setup, es: seq<Input>, n: nat)
    requires n < |es| && TrackAfter(s, es[..n]).None?
    ensures !Drops(s, es, n)
  {
  }

  lemma StaysGone(s: Setup, e: Input)
    requires !e.Heard?
    ensures StepOf(s, None, e).None?
  {
  }

  /** What an input that is no report does to a track that is there. */
  lemma SomeStep(s: Setup, es: seq<Input>)
    requires es != [] && !es[|es| - 1].Heard? && TrackAfter(s, es[..|es| - 1]).Some?
    ensures TrackAfter(s, es).None? <==> Drops(s, es, |es| - 1)
  {
    hide Drops, TrackAfter;
    if es[|es| - 1].Culled? {
      CullingDrops(s, es);
    } else {
      TrackUnfolds(s, es);
      NotDropping(s, es, |es| - 1);
    }
  }
}
