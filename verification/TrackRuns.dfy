/** One aircraft's track over any run of reports, sweeps and prunings (estimator.py): what it counts and
    which state it shows, and over how much time its filter has been run. */
module TrackRuns {
  import opened Prelude
  import opened Estimator
  import opened Blocks
  import opened Kalman
  import opened KalmanUpdate
  import opened KalmanFilter
  import opened TrackFilters
  import FilterRuns

  /** What reaches a track: a report of the aircraft, a sweep, or the dropping of tracks long terminated. */
  datatype Input = Heard(report: Report) | Swept(now: real) | Culled(now: real, olderThanS: real)

  function StepOf(s: Setup, slot: Option<TrackRecord>, e: Input): Option<TrackRecord> {
    match e
    case Heard(r) => Some(Reported(s, slot, r))
    case Swept(now) => if slot.None? then None else Some(Aged(s, slot.value, now))
    case Culled(now, age) => if slot.Some? && Prunable(slot.value, now, age) then None else slot
  }

  function TrackAfter(s: Setup, es: seq<Input>): Option<TrackRecord> {
    if es == [] then None else StepOf(s, TrackAfter(s, es[..|es| - 1]), es[|es| - 1])
  }

  /** The estimator's operations act on each track in this way: a report on its own track only. */
  lemma OperationsActOnEachTrack(s: Setup, tracks: Tracks, a: Id, r: Report, now: real, olderThanS: real)
    ensures Lookup(tracks[r.aircraft := Reported(s, Lookup(tracks, r.aircraft), r)], a)
         == if a == r.aircraft then StepOf(s, Lookup(tracks, a), Heard(r)) else Lookup(tracks, a)
    ensures Lookup(AllAged(s, tracks, now), a) == StepOf(s, Lookup(tracks, a), Swept(now))
    ensures Lookup(Pruned(tracks, now, olderThanS), a) == StepOf(s, Lookup(tracks, a), Culled(now, olderThanS))
  {
    hide Reported, Aged;
  }

  // ----- Lives of a track -----

  /** Input `i` is a report that starts a new track: there was none, or it had been terminated. */
  predicate Begins(s: Setup, es: seq<Input>, i: nat)
    requires i < |es|
  {
    es[i].Heard? && var before := TrackAfter(s, es[..i]); before.None? || before.value.terminated
  }

  /** The report with which the track's present life began. */
  function Birth(s: Setup, es: seq<Input>): (b: int)
    ensures -1 <= b < |es| && (b >= 0 ==> es[b].Heard?)
  {
    if es == [] then -1 else if Begins(s, es, |es| - 1) then |es| - 1 else Birth(s, es[..|es| - 1])
  }

  /** In the life that began at `b`, input `i` is a report newer than every one before it. */
  predicate IsFresh(es: seq<Input>, b: nat, i: nat) {
    b <= i < |es| && es[i].Heard?
    && forall j :: b <= j < i && es[j].Heard? ==> es[j].report.observedAt < es[i].report.observedAt
  }

  function FreshCount(es: seq<Input>, b: nat): nat {
    if |es| <= b then 0 else FreshCount(es[..|es| - 1], b) + if IsFresh(es, b, |es| - 1) then 1 else 0
  }

  /** Since the report at `f` some sweep found the track silent for at least this long. */
  predicate FoundSilent(es: seq<Input>, f: nat, lastReportAt: real, afterS: real) {
    exists i :: f < i < |es| && es[i].Swept? && es[i].now - lastReportAt >= afterS
  }

  /** The state a track should show: terminated or coasting by the silence sweeps have found since its
      latest fresh report, otherwise confirmed when enough fresh reports, and more than the first, have
      come. */
  function StateOf(s: Setup, es: seq<Input>, b: nat, f: nat, lastReportAt: real): TrackState {
    if FoundSilent(es, f, lastReportAt, s.terminateAfterS) then Terminated
    else if FoundSilent(es, f, lastReportAt, s.coastAfterS) then Coasting
    else if 2 <= FreshCount(es, b) && s.confirmationUpdates <= FreshCount(es, b) then Confirmed
    else Initiating
  }

  /** No report since input `b` was observed after this time. */
  predicate NoneAfter(es: seq<Input>, b: nat, time: real) {
    forall i :: b <= i < |es| && es[i].Heard? ==> es[i].report.observedAt <= time
  }

  /** Input `f` is a fresh report of the life that began at `b`, and the last one. */
  ghost predicate IsLatestFresh(es: seq<Input>, b: nat, f: nat) {
    IsFresh(es, b, f) && forall i :: f < i < |es| ==> !IsFresh(es, b, i)
  }

  /** The report at `f` is the latest fresh one of the life that began at `b`, and the track is what the
      inputs since then make it. */
  ghost predicate Lives(s: Setup, es: seq<Input>, rec: TrackRecord, b: nat, f: nat) {
    && IsLatestFresh(es, b, f)
    && rec.lastReportAt == es[f].report.observedAt
    && NoneAfter(es, b, rec.lastReportAt)
    && rec.updateCount == FreshCount(es, b) >= 1
    && rec.state == StateOf(s, es, b, f, rec.lastReportAt) && (rec.terminated <==> rec.state == Terminated)
  }

  lemma FreshInPrefix(es: seq<Input>, b: nat, i: nat)
    requires |es| > 0 && i < |es| - 1
    ensures IsFresh(es[..|es| - 1], b, i) <==> IsFresh(es, b, i)
  {
    var before := es[..|es| - 1];
    assert forall j :: 0 <= j < |before| ==> before[j] == es[j];
  }

  lemma SilenceOnward(es: seq<Input>, f: nat, lastReportAt: real, afterS: real)
    requires |es| > 0 && f < |es| - 1
    ensures FoundSilent(es, f, lastReportAt, afterS)
       <==> FoundSilent(es[..|es| - 1], f, lastReportAt, afterS)
            || (es[|es| - 1].Swept? && es[|es| - 1].now - lastReportAt >= afterS)
  {
    var (before, n) := (es[..|es| - 1], |es| - 1);
    assert forall j :: 0 <= j < |before| ==> before[j] == es[j];
    if i :| f < i < |es| && es[i].Swept? && es[i].now - lastReportAt >= afterS {
      if i < n { assert before[i].Swept? && before[i].now - lastReportAt >= afterS; }
    }
  }

  lemma NotYetSilent(es: seq<Input>, f: nat, lastReportAt: real, afterS: real)
    requires |es| <= f + 1
    ensures !FoundSilent(es, f, lastReportAt, afterS)
  {
  }

  /** A report that starts a life. */
  lemma LifeBegins(s: Setup, es: seq<Input>)
    requires |es| > 0 && Begins(s, es, |es| - 1)
    ensures TrackAfter(s, es).Some? && Lives(s, es, TrackAfter(s, es).value, |es| - 1, |es| - 1)
  {
    hide FilterRuns.Step, AllGood;
    var n := |es| - 1;
    NotYetSilent(es, n, es[n].report.observedAt, s.terminateAfterS);
    NotYetSilent(es, n, es[n].report.observedAt, s.coastAfterS);
    assert FreshCount(es[..n], n) == 0;
  }

  lemma StillThere(s: Setup, es: seq<Input>)
    requires |es| > 0 && TrackAfter(s, es).Some? && !Begins(s, es, |es| - 1)
    ensures TrackAfter(s, es[..|es| - 1]).Some?
    ensures es[|es| - 1].Heard? ==> !TrackAfter(s, es[..|es| - 1]).value.terminated
  {
    hide Reported, Aged;
  }

  /** A sweep, a culling or an old report of a life under way. */
  lemma LifeGoesOn(s: Setup, es: seq<Input>, rec: TrackRecord, b: nat, f: nat)
    requires |es| > 0 && TrackAfter(s, es[..|es| - 1]) == Some(rec) && Lives(s, es[..|es| - 1], rec, b, f)
    requires !IsFresh(es, b, |es| - 1) && !Begins(s, es, |es| - 1) && TrackAfter(s, es).Some?
    ensures Lives(s, es, TrackAfter(s, es).value, b, f)
  {
    hide FilterRuns.Step, AllGood, TrackAfter, FoundSilent, StepOf, IsFresh, FreshCount, IsLatestFresh, NoneAfter;
    StillThere(s, es);
    TrackUnfolds(s, es);
    StateOnward(s, es, rec, b, f);
    NotFreshOnward(es, b, f, rec.lastReportAt);
    SilenceOnward(es, f, rec.lastReportAt, s.terminateAfterS);
    SilenceOnward(es, f, rec.lastReportAt, s.coastAfterS);
  }

  /** An input that is not fresh leaves the fresh reports as they were. */
  lemma NotFreshOnward(es: seq<Input>, b: nat, f: nat, lastReportAt: real)
    requires |es| > 0 && IsLatestFresh(es[..|es| - 1], b, f) && !IsFresh(es, b, |es| - 1)
    requires NoneAfter(es[..|es| - 1], b, lastReportAt)
    requires es[|es| - 1].Heard? ==> es[|es| - 1].report.observedAt <= lastReportAt
    ensures IsLatestFresh(es, b, f) && b <= f < |es| - 1 && es[f].Heard? && es[f] == es[..|es| - 1][f]
    ensures FreshCount(es, b) == FreshCount(es[..|es| - 1], b) && NoneAfter(es, b, lastReportAt)
  {
    hide IsFresh;
    var n := |es| - 1;
    forall i | 0 <= i < n ensures IsFresh(es[..n], b, i) <==> IsFresh(es, b, i) { FreshInPrefix(es, b, i); }
    FreshIsHeard(es[..n], b, f);
    forall i | b <= i < |es| && es[i].Heard? ensures es[i].report.observedAt <= lastReportAt {
      if i < n { assert es[..n][i] == es[i]; }
    }
  }

  lemma FreshIsHeard(es: seq<Input>, b: nat, i: nat)
    requires IsFresh(es, b, i)
    ensures b <= i < |es| && es[i].Heard?
  {
  }

  /** What such an input does to the record, in terms of the silence found. */
  lemma StateOnward(s: Setup, es: seq<Input>, rec: TrackRecord, b: nat, f: nat)
    requires |es| > 0 && Lives(s, es[..|es| - 1], rec, b, f) && !IsFresh(es, b, |es| - 1)
    requires StepOf(s, Some(rec), es[|es| - 1]).Some? && (es[|es| - 1].Heard? ==> !rec.terminated)
    ensures var (rec', e) := (StepOf(s, Some(rec), es[|es| - 1]).value, es[|es| - 1]);
      && rec'.lastReportAt == rec.lastReportAt && rec'.updateCount == rec.updateCount
      && (rec'.terminated <==> rec'.state == Terminated)
      && (e.Heard? ==> e.report.observedAt <= rec.lastReportAt)
      && rec'.state == if e.Swept? && rec.state != Terminated && e.now - rec.lastReportAt >= s.terminateAfterS
                       then Terminated
                       else if e.Swept? && rec.state != Terminated && e.now - rec.lastReportAt >= s.coastAfterS
                       then Coasting else rec.state
  {
    hide FilterRuns.Step, AllGood, FoundSilent, IsFresh, TrackAfter;
    if es[|es| - 1].Heard? { StaleReport(s, es, rec, b, f); }
  }

  lemma TrackUnfolds(s: Setup, es: seq<Input>)
    requires |es| > 0
    ensures TrackAfter(s, es) == StepOf(s, TrackAfter(s, es[..|es| - 1]), es[|es| - 1])
  {
  }

  /** A report that is not fresh is no newer than the latest. */
  lemma StaleReport(s: Setup, es: seq<Input>, rec: TrackRecord, b: nat, f: nat)
    requires |es| > 0 && es[|es| - 1].Heard? && Lives(s, es[..|es| - 1], rec, b, f) && !IsFresh(es, b, |es| - 1)
    requires !rec.terminated
    ensures es[|es| - 1].report.observedAt <= rec.lastReportAt
    ensures Reported(s, Some(rec), es[|es| - 1].report) == rec
  {
    hide FilterRuns.Step, AllGood, FoundSilent;
    var n := |es| - 1;
    var j :| b <= j < n && es[j].Heard? && es[j].report.observedAt >= es[n].report.observedAt;
    assert es[..n][j] == es[j];
    OldReportChangesNothing(s, rec, es[n].report);
  }

  /** A fresh report of a life under way. */
  lemma LifeRenewed(s: Setup, es: seq<Input>, rec: TrackRecord, b: nat, f: nat)
    requires |es| > 0 && TrackAfter(s, es[..|es| - 1]) == Some(rec) && Lives(s, es[..|es| - 1], rec, b, f)
    requires IsFresh(es, b, |es| - 1) && !Begins(s, es, |es| - 1)
    ensures TrackAfter(s, es).Some? && Lives(s, es, TrackAfter(s, es).value, b, |es| - 1)
  {
    hide FilterRuns.Step, AllGood, TrackAfter;
    var n := |es| - 1;
    assert es[..n][f] == es[f] && b <= f < n;
    assert es[f].report.observedAt < es[n].report.observedAt;
    TrackUnfolds(s, es);
    NotYetSilent(es, n, es[n].report.observedAt, s.terminateAfterS);
    NotYetSilent(es, n, es[n].report.observedAt, s.coastAfterS);
    hide FoundSilent;
    forall i | b <= i < |es| && es[i].Heard? ensures es[i].report.observedAt <= es[n].report.observedAt {
      if i < n { assert es[..n][i] == es[i]; }
    }
  }

  /** Over any run of reports and sweeps, with redelivered and late reports and restarts after termination
      among them, a track counts the fresh reports of its present life, stands at the latest of them, and
      shows the state they and the silence found since call for. */
  lemma {:induction false} TrackLives(s: Setup, es: seq<Input>) returns (f: nat)
    requires TrackAfter(s, es).Some?
    ensures 0 <= Birth(s, es) && Lives(s, es, TrackAfter(s, es).value, Birth(s, es), f)
  {
    hide Lives, StepOf, IsFresh;
    var n := |es| - 1;
    if Begins(s, es, n) {
      LifeBegins(s, es);
      f := n;
    } else {
      StillThere(s, es);
      f := TrackLives(s, es[..n]);
      var (rec, b) := (TrackAfter(s, es[..n]).value, Birth(s, es));
      if IsFresh(es, b, n) {
        LifeRenewed(s, es, rec, b, f);
        f := n;
      } else {
        LifeGoesOn(s, es, rec, b, f);
      }
    }
  }

  // ----- What the filter has been put through -----

  /** The sweep at `i` announces a change of the track. */
  predicate AnnouncesChange(s: Setup, es: seq<Input>, i: nat)
    requires i < |es|
  {
    es[i].Swept? && TrackAfter(s, es[..i]).Some? && Changes(s, TrackAfter(s, es[..i]).value, es[i].now)
  }

  /** It does so later than the track's latest report, as every change is if the timeouts are positive. */
  predicate AnnouncesSilence(s: Setup, es: seq<Input>, i: nat)
    requires i < |es|
  {
    AnnouncesChange(s, es, i) && es[i].now > TrackAfter(s, es[..i]).value.lastReportAt
  }

  /** How long the track had been silent at the sweep. */
  function Silence(s: Setup, es: seq<Input>, i: nat): real
    requires i < |es| && AnnouncesSilence(s, es, i)
  {
    es[i].now - TrackAfter(s, es[..i]).value.lastReportAt
  }

  /** What an input makes the filter of a track under way do. */
  function OpOf(s: Setup, rec: TrackRecord, e: Input): seq<FilterRuns.Op> {
    match e
    case Heard(r) =>
      var dt := r.observedAt - rec.lastReportAt;
      if dt > 0.0 then [FilterRuns.Correct(dt, MeasurementOf(s.projection, rec.origin, r))] else []
    case Swept(now) =>
      if Changes(s, rec, now) && now > rec.lastReportAt then [FilterRuns.Coast(now - rec.lastReportAt)] else []
    case Culled(now, age) => []
  }

  /** The filter operations of the track's present life. */
  function Ops(s: Setup, es: seq<Input>): seq<FilterRuns.Op> {
    if es == [] || Begins(s, es, |es| - 1) then []
    else
      var before := TrackAfter(s, es[..|es| - 1]);
      Ops(s, es[..|es| - 1]) + if before.Some? then OpOf(s, before.value, es[|es| - 1]) else []
  }

  lemma OpRunsFilter(s: Setup, rec: TrackRecord, e: Input)
    requires (e.Heard? ==> !rec.terminated) && StepOf(s, Some(rec), e).Some?
    ensures var ops := OpOf(s, rec, e);
      StepOf(s, Some(rec), e).value.filter
      == if ops == [] then rec.filter else FilterRuns.Step(s.tuning, rec.filter, ops[0], s.sqrt)
  {
    hide FilterRuns.Step, AllGood;
  }

  lemma RunOneMore(s: Setup, initial: Filter, ops: seq<FilterRuns.Op>, more: seq<FilterRuns.Op>)
    requires |more| <= 1
    ensures var f := FilterRuns.Run(s.tuning, initial, ops, s.sqrt);
      FilterRuns.Run(s.tuning, initial, ops + more, s.sqrt)
      == if more == [] then f else FilterRuns.Step(s.tuning, f, more[0], s.sqrt)
  {
    hide FilterRuns.Step, AllGood;
    if more == [] { assert ops + more == ops; } else { assert (ops + more)[..|ops + more| - 1] == ops; }
  }

  lemma FirstFilter(s: Setup, slot: Option<TrackRecord>, r: Report)
    requires slot.None? || slot.value.terminated
    ensures Reported(s, slot, r).filter == InitialFilter(s, r) && Reported(s, slot, r).lastReportAt == r.observedAt
  {
    hide FilterRuns.Step, AllGood, InitialFilter;
  }

  /** The track's filter is the one its present life began with, put through those operations. */
  lemma {:induction false} FilterIsRunOfOps(s: Setup, es: seq<Input>)
    requires TrackAfter(s, es).Some?
    ensures 0 <= Birth(s, es)
    ensures TrackAfter(s, es).value.filter
         == FilterRuns.Run(s.tuning, InitialFilter(s, es[Birth(s, es)].report), Ops(s, es), s.sqrt)
  {
    hide FilterRuns.Step, AllGood, StepOf, OpOf, InitialFilter;
    var n := |es| - 1;
    if Begins(s, es, n) {
      FirstFilter(s, TrackAfter(s, es[..n]), es[n].report);
      StartOfRun(s, InitialFilter(s, es[n].report));
      HeardStep(s, TrackAfter(s, es[..n]), es[n]);
    } else {
      StillThere(s, es);
      FilterIsRunOfOps(s, es[..n]);
      var rec := TrackAfter(s, es[..n]).value;
      OpRunsFilter(s, rec, es[n]);
      AtMostOneOp(s, rec, es[n]);
      RunOneMore(s, InitialFilter(s, es[Birth(s, es)].report), Ops(s, es[..n]), OpOf(s, rec, es[n]));
    }
  }

  lemma StartOfRun(s: Setup, initial: Filter)
    ensures FilterRuns.Run(s.tuning, initial, [], s.sqrt) == initial
  {
  }

  lemma HeardStep(s: Setup, slot: Option<TrackRecord>, e: Input)
    requires e.Heard?
    ensures StepOf(s, slot, e) == Some(Reported(s, slot, e.report))
  {
  }

  lemma AtMostOneOp(s: Setup, rec: TrackRecord, e: Input)
    ensures |OpOf(s, rec, e)| <= 1
  {
  }

  // ----- Over how much time -----

  /** The time over which the operations run a filter forward. */
  function Span(ops: seq<FilterRuns.Op>): real {
    if ops == [] then 0.0 else Span(ops[..|ops| - 1]) + ops[|ops| - 1].dt
  }

  /** The silences announced since the track's present life began, added up. */
  function AnnouncedSilences(s: Setup, es: seq<Input>): real {
    if es == [] || Begins(s, es, |es| - 1) then 0.0
    else
      AnnouncedSilences(s, es[..|es| - 1])
      + if AnnouncesSilence(s, es, |es| - 1) then Silence(s, es, |es| - 1) else 0.0
  }

  lemma SpanOneMore(ops: seq<FilterRuns.Op>, more: seq<FilterRuns.Op>)
    requires |more| <= 1
    ensures Span(ops + more) == Span(ops) + if more == [] then 0.0 else more[0].dt
  {
    if more == [] { assert ops + more == ops; } else { assert (ops + more)[..|ops + more| - 1] == ops; }
  }

  /** How far an input moves a track's last report and its filter. */
  lemma OpSpan(s: Setup, rec: TrackRecord, e: Input)
    requires (e.Heard? ==> !rec.terminated) && StepOf(s, Some(rec), e).Some?
    ensures var (after, ops) := (StepOf(s, Some(rec), e).value, OpOf(s, rec, e));
      && |ops| <= 1
      && (if ops == [] then 0.0 else ops[0].dt)
         == after.lastReportAt - rec.lastReportAt
            + if e.Swept? && Changes(s, rec, e.now) && e.now > rec.lastReportAt then e.now - rec.lastReportAt else 0.0
  {
    hide FilterRuns.Step, AllGood;
  }

  /** A track's filter has been run forward over the time between the first and the latest report of its
      life, and besides over every silence a sweep has announced. */
  lemma {:induction false} SpanOfFilter(s: Setup, es: seq<Input>)
    requires TrackAfter(s, es).Some?
    ensures 0 <= Birth(s, es)
    ensures Span(Ops(s, es))
         == TrackAfter(s, es).value.lastReportAt - es[Birth(s, es)].report.observedAt + AnnouncedSilences(s, es)
  {
    hide FilterRuns.Step, AllGood, StepOf, OpOf, Changes;
    var n := |es| - 1;
    if Begins(s, es, n) {
      FirstFilter(s, TrackAfter(s, es[..n]), es[n].report);
      HeardStep(s, TrackAfter(s, es[..n]), es[n]);
    } else {
      StillThere(s, es);
      SpanOfFilter(s, es[..n]);
      var rec := TrackAfter(s, es[..n]).value;
      OpSpan(s, rec, es[n]);
      SpanOneMore(Ops(s, es[..n]), OpOf(s, rec, es[n]));
    }
  }

  lemma SilenceIsPositive(s: Setup, es: seq<Input>, i: nat)
    requires i < |es| && AnnouncesSilence(s, es, i)
    ensures Silence(s, es, i) > 0.0
  {
    hide TrackAfter;
  }

  lemma AnnouncedInPrefix(s: Setup, es: seq<Input>, m: nat, i: nat)
    requires i < m <= |es|
    ensures AnnouncesSilence(s, es[..m], i) == AnnouncesSilence(s, es, i)
  {
    assert es[..m][..i] == es[..i];
  }

  /** No silence of the track's present life has been announced. */
  ghost predicate NoneAnnounced(s: Setup, es: seq<Input>) {
    forall i :: Birth(s, es) < i < |es| ==> !AnnouncesSilence(s, es, i)
  }

  lemma {:induction false} NothingAddedExactlyWhenNoneAnnounced(s: Setup, es: seq<Input>)
    ensures AnnouncedSilences(s, es) >= 0.0 && (AnnouncedSilences(s, es) == 0.0 <==> NoneAnnounced(s, es))
  {
    hide TrackAfter, Begins, AnnouncesSilence, Silence;
    if es != [] && !Begins(s, es, |es| - 1) {
      var n := |es| - 1;
      NothingAddedExactlyWhenNoneAnnounced(s, es[..n]);
      forall i | 0 <= i < n ensures AnnouncesSilence(s, es[..n], i) == AnnouncesSilence(s, es, i) {
        AnnouncedInPrefix(s, es, n, i);
      }
      if AnnouncesSilence(s, es, n) { SilenceIsPositive(s, es, n); }
    }
  }

  lemma SweepKeepsReportTime(s: Setup, rec: TrackRecord, e: Input)
    ensures e.Swept? ==> StepOf(s, Some(rec), e).value.lastReportAt == rec.lastReportAt
  {
    hide FilterRuns.Step, AllGood;
  }

  lemma HeardIsAnnouncedAtItsTime(s: Setup, slot: Option<TrackRecord>, e: Input)
    requires e.Heard?
    ensures StepOf(s, slot, e).value.lastReportAt >= e.report.observedAt
  {
    hide FilterRuns.Step, AllGood;
  }

  /** Input `n`, the last, announces the track for time `at`. */
  predicate AnnouncesAt(s: Setup, es: seq<Input>, at: real) {
    es != []
    && var n := |es| - 1;
    (es[n].Heard? && at == es[n].report.observedAt) || (AnnouncesChange(s, es, n) && at == es[n].now)
  }

  lemma SpanAtAnnouncement(s: Setup, es: seq<Input>, at: real)
    requires TrackAfter(s, es).Some? && AnnouncesAt(s, es, at)
    ensures 0 <= Birth(s, es)
    ensures Span(Ops(s, es)) == Max(at, TrackAfter(s, es).value.lastReportAt) - es[Birth(s, es)].report.observedAt
                                + if Birth(s, es) == |es| - 1 then 0.0 else AnnouncedSilences(s, es[..|es| - 1])
  {
    hide StepOf, Ops, Changes, Span;
    var n := |es| - 1;
    SpanOfFilter(s, es);
    if Begins(s, es, n) {
      FirstFilter(s, TrackAfter(s, es[..n]), es[n].report);
      HeardStep(s, TrackAfter(s, es[..n]), es[n]);
    } else {
      StillThere(s, es);
      SweepKeepsReportTime(s, TrackAfter(s, es[..n]).value, es[n]);
      if es[n].Heard? {
        HeardIsAnnouncedAtItsTime(s, TrackAfter(s, es[..n]), es[n]);
      }
    }
  }

  lemma NoneAnnouncedBefore(s: Setup, es: seq<Input>)
    requires es != [] && !Begins(s, es, |es| - 1)
    ensures AnnouncedSilences(s, es[..|es| - 1]) >= 0.0
    ensures AnnouncedSilences(s, es[..|es| - 1]) == 0.0
       <==> forall i :: Birth(s, es) < i < |es| - 1 ==> !AnnouncesSilence(s, es, i)
  {
    hide AnnouncedSilences, AnnouncesSilence, TrackAfter, Begins;
    var n := |es| - 1;
    NothingAddedExactlyWhenNoneAnnounced(s, es[..n]);
    forall i | 0 <= i < n ensures AnnouncesSilence(s, es[..n], i) == AnnouncesSilence(s, es, i) {
      AnnouncedInPrefix(s, es, n, i);
    }
  }

  /** An announced estimate has been run forward from the first report of the track's life to the time it
      is announced for, or to the latest report if that is later, and besides over every silence announced
      before in that life.  So it is an estimate for its time exactly when that time is no older than the
      latest report and no silence was announced before: the announcement of an overtaken report is for too
      early a time, and that of a termination after one of coasting, and any correction after either, count
      the silence again. */
  lemma AnnouncedEstimateIsForItsTime(s: Setup, es: seq<Input>, at: real)
    requires TrackAfter(s, es).Some? && AnnouncesAt(s, es, at)
    ensures 0 <= Birth(s, es)
    ensures Announce(TrackAfter(s, es).value, at).estimate
         == FilterRuns.Run(s.tuning, InitialFilter(s, es[Birth(s, es)].report), Ops(s, es), s.sqrt)
    ensures var (span, born, last) :=
        (Span(Ops(s, es)), es[Birth(s, es)].report.observedAt, TrackAfter(s, es).value.lastReportAt);
      && span == Max(at, last) - born
                 + (if Birth(s, es) == |es| - 1 then 0.0 else AnnouncedSilences(s, es[..|es| - 1]))
      && (span == at - born <==>
            at >= last && forall i :: Birth(s, es) < i < |es| - 1 ==> !AnnouncesSilence(s, es, i))
  {
    hide FilterRuns.Run, AllGood, TrackAfter, InitialFilter, Ops, Span, AnnouncedSilences, AnnouncesSilence, Begins;
    FilterIsRunOfOps(s, es);
    SpanAtAnnouncement(s, es, at);
    if !Begins(s, es, |es| - 1) { NoneAnnouncedBefore(s, es); }
  }

  // ----- Runs in which an announced estimate is not for its time -----

  lemma FirstStep(s: Setup, r: Report)
    ensures var es := [Heard(r)];
      && TrackAfter(s, es).Some? && Begins(s, es, 0) && Birth(s, es) == 0 && AnnouncedSilences(s, es) == 0.0
      && TrackAfter(s, es).value.lastReportAt == r.observedAt && TrackAfter(s, es).value.state == Initiating
      && !TrackAfter(s, es).value.terminated
  {
    hide FilterRuns.Step, AllGood;
    assert [Heard(r)][..0] == [];
  }

  /** One more sweep of a track under way. */
  lemma SweepStep(s: Setup, es: seq<Input>, now: real)
    requires TrackAfter(s, es).Some?
    ensures var (longer, rec) := (es + [Swept(now)], TrackAfter(s, es).value);
      && TrackAfter(s, longer) == Some(Aged(s, rec, now)) && Birth(s, longer) == Birth(s, es)
      && (AnnouncesSilence(s, longer, |es|) <==> Changes(s, rec, now) && now > rec.lastReportAt)
      && AnnouncedSilences(s, longer)
         == AnnouncedSilences(s, es)
            + if Changes(s, rec, now) && now > rec.lastReportAt then now - rec.lastReportAt else 0.0
  {
    hide Aged, Changes;
    assert (es + [Swept(now)])[..|es|] == es;
  }

  lemma CoastingStep(s: Setup, rec: TrackRecord, now: real)
    requires !rec.terminated && rec.state == Initiating && s.coastAfterS <= now - rec.lastReportAt < s.terminateAfterS
    ensures Changes(s, rec, now)
    ensures var aged := Aged(s, rec, now);
      aged.state == Coasting && !aged.terminated && aged.lastReportAt == rec.lastReportAt
  {
    hide FilterRuns.Step, AllGood;
  }

  lemma TerminatingStep(s: Setup, rec: TrackRecord, now: real)
    requires !rec.terminated && rec.state == Coasting && s.terminateAfterS <= now - rec.lastReportAt
    ensures Changes(s, rec, now) && Aged(s, rec, now).state == Terminated
    ensures Aged(s, rec, now).lastReportAt == rec.lastReportAt
  {
    hide FilterRuns.Step, AllGood;
  }

  /** A fresh report of a track under way. */
  lemma FreshStep(s: Setup, es: seq<Input>, r: Report)
    requires TrackAfter(s, es).Some? && !TrackAfter(s, es).value.terminated
    requires r.observedAt >= TrackAfter(s, es).value.lastReportAt
    ensures var longer := es + [Heard(r)];
      && TrackAfter(s, longer).Some? && TrackAfter(s, longer).value.lastReportAt == r.observedAt
      && Birth(s, longer) == Birth(s, es) && AnnouncedSilences(s, longer) == AnnouncedSilences(s, es)
  {
    hide FilterRuns.Step, AllGood;
    assert (es + [Heard(r)])[..|es|] == es;
  }

  /** A report, a sweep that finds the track coasting, and then either a sweep that terminates it or another
      report: the filter has been run over the first silence twice. */
  lemma SilenceIsCountedTwice(s: Setup, r: Report, again: Report, coasting: real, gone: real)
    requires r.observedAt < coasting && s.coastAfterS <= coasting - r.observedAt < s.terminateAfterS
    requires s.terminateAfterS <= gone - r.observedAt && again.observedAt >= coasting
    ensures var (once, twice) := ([Heard(r), Swept(coasting), Swept(gone)], [Heard(r), Swept(coasting), Heard(again)]);
      && AnnouncesSilence(s, once, 2) && TrackAfter(s, once).Some? && TrackAfter(s, once).value.state == Terminated
      && Span(Ops(s, once)) == (gone - r.observedAt) + (coasting - r.observedAt)
      && Span(Ops(s, twice)) == (again.observedAt - r.observedAt) + (coasting - r.observedAt)
  {
    hide TrackAfter, Birth, AnnouncedSilences, AnnouncesSilence, Span, Ops, Aged, Changes, Begins;
    var (one, two) := ([Heard(r)], [Heard(r), Swept(coasting)]);
    assert one + [Swept(coasting)] == two;
    FirstStep(s, r);
    SweepStep(s, one, coasting);
    CoastingStep(s, TrackAfter(s, one).value, coasting);
    assert two + [Swept(gone)] == [Heard(r), Swept(coasting), Swept(gone)];
    SweepStep(s, two, gone);
    TerminatingStep(s, TrackAfter(s, two).value, gone);
    SpanOfFilter(s, two + [Swept(gone)]);
    assert two + [Heard(again)] == [Heard(r), Swept(coasting), Heard(again)];
    FreshStep(s, two, again);
    SpanOfFilter(s, two + [Heard(again)]);
  }

  /** A report and then an older one: the filter drops the older, which is announced for its own time all
      the same.  The estimate announced is the one for the first report. */
  lemma OvertakenReportIsAnnouncedTooEarly(s: Setup, r: Report, late: Report)
    requires late.observedAt < r.observedAt
    ensures var es := [Heard(r), Heard(late)];
      && TrackAfter(s, es).Some? && AnnouncesAt(s, es, late.observedAt) && Birth(s, es) == 0
      && Announce(TrackAfter(s, es).value, late.observedAt).estimate == InitialFilter(s, r)
      && Span(Ops(s, es)) == 0.0 > late.observedAt - r.observedAt
      && forall i :: 0 <= i < |es| ==> !AnnouncesSilence(s, es, i)
  {
    hide FilterRuns.Step, AllGood;
    var (one, es) := ([Heard(r)], [Heard(r), Heard(late)]);
    assert es[..1] == one && one[..0] == [];
    FirstStep(s, r);
    FirstFilter(s, None, r);
    OldReportChangesNothing(s, TrackAfter(s, one).value, late);
  }
}
