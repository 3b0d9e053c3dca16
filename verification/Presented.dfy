/** In which order the conformance service (conformance/runner.py) presents a track's updates to the
    monitor (monitor.py), whose queue assumes time order: an older update is refused while the track is in
    the picture, but a track that was terminated and comes back before the next scan starts afresh in the
    picture and not in the monitor. */
module Presented {
  import opened Prelude
  import opened Estimator
  import opened Monitor
  import opened Conformance

  /** What reaches the service: an update of some track, or the moment of a scan. */
  datatype Input = Arrives(update: TrackUpdate) | Scans(now: real)

  /** One track: what the picture shows of it, whether it was terminated since the last scan, and what the
      monitor has been presented with since it last forgot the track. */
  datatype Standing = Standing(shown: Option<TrackUpdate>, leaving: bool, presented: seq<TrackUpdate>)

  const NOTHING := Standing(None, false, [])

  predicate Accepts(st: Standing, u: TrackUpdate) {
    u.state != Terminated && (st.shown.None? || u.updatedAt >= st.shown.value.updatedAt)
  }

  function After(staleAfterS: real, a: Id, st: Standing, e: Input): Standing {
    match e
    case Arrives(u) =>
      if u.aircraft != a then st
      else if u.state == Terminated then st.(shown := None, leaving := true)
      else if Accepts(st, u) then st.(shown := Some(u), presented := st.presented + [u])
      else st
    case Scans(now) =>
      var stale := st.shown.Some? && Stale(st.shown.value, now, staleAfterS);
      Standing(if stale then None else st.shown, false, if stale || st.leaving then [] else st.presented)
  }

  function Run(staleAfterS: real, a: Id, es: seq<Input>): Standing {
    if es == [] then NOTHING else After(staleAfterS, a, Run(staleAfterS, a, es[..|es| - 1]), es[|es| - 1])
  }

  // ----- The service keeps exactly this of every track -----

  function ViewAfter(s: Monitor.Settings, staleAfterS: real, es: seq<Input>): View {
    if es == [] then View(map[], {}, map[], map[])
    else
      var v := ViewAfter(s, staleAfterS, es[..|es| - 1]);
      match es[|es| - 1]
      case Arrives(u) => Absorbed(s, v, u)
      case Scans(now) => Rescanned(v, now, staleAfterS)
  }

  /** What the service holds of one track is the track's standing: the monitor's window and queue are those
      of the updates presented. */
  predicate Keeps(s: Monitor.Settings, v: View, a: Id, st: Standing) {
    && Lookup(v.picture, a) == st.shown && (a in v.terminated <==> st.leaving)
    && Held(v.windows, a) == WindowAfter(st.presented) && Held(v.pending, a) == QueueAfter(s, st.presented)
  }

  lemma AbsorbingKeeps(s: Monitor.Settings, staleAfterS: real, v: View, a: Id, st: Standing, u: TrackUpdate)
    requires Keeps(s, v, a, st)
    ensures Keeps(s, Absorbed(s, v, u), a, After(staleAfterS, a, st, Arrives(u)))
  {
    hide WindowAfter, QueueAfter, Append, Undue, MakePrediction;
    ObservingExtends(s, st.presented, u);
  }

  lemma ScanningKeeps(s: Monitor.Settings, staleAfterS: real, v: View, a: Id, st: Standing, now: real)
    requires Keeps(s, v, a, st)
    ensures Keeps(s, Rescanned(v, now, staleAfterS), a, After(staleAfterS, a, st, Scans(now)))
  {
    hide Append, Undue, MakePrediction;
  }

  /** Over every run of updates and scans, the monitor holds of each track the window and the queue of the
      updates the track's standing lists. */
  lemma {:induction false} MonitorHoldsThePresented(s: Monitor.Settings, staleAfterS: real, es: seq<Input>, a: Id)
    ensures Keeps(s, ViewAfter(s, staleAfterS, es), a, Run(staleAfterS, a, es))
  {
    hide After, Absorbed, Rescanned, Keeps;
    if es == [] {
      NothingKept(s, a);
    } else {
      var (before, e) := (es[..|es| - 1], es[|es| - 1]);
      MonitorHoldsThePresented(s, staleAfterS, before, a);
      var (v, st) := (ViewAfter(s, staleAfterS, before), Run(staleAfterS, a, before));
      match e {
        case Arrives(u) => AbsorbingKeeps(s, staleAfterS, v, a, st, u);
        case Scans(now) => ScanningKeeps(s, staleAfterS, v, a, st, now);
      }
    }
  }

  lemma NothingKept(s: Monitor.Settings, a: Id)
    ensures Keeps(s, View(map[], {}, map[], map[]), a, NOTHING)
  {
  }

  // ----- In order, exactly when no track comes back older -----

  /** Input `n` brings back, before a scan, a track that was terminated, with an update older than the last
      one presented. */
  predicate ComesBackOlder(staleAfterS: real, a: Id, es: seq<Input>, n: nat) {
    n < |es| && es[n].Arrives? && es[n].update.aircraft == a
    && var st := Run(staleAfterS, a, es[..n]);
    && es[n].update.state != Terminated && st.shown.None? && st.leaving && st.presented != []
    && es[n].update.updatedAt < st.presented[|st.presented| - 1].updatedAt
  }

  /** Nothing was presented, or the picture shows the last update presented, or the track is leaving. */
  predicate Settles(st: Standing) {
    st.presented == []
    || if st.shown.Some? then st.presented[|st.presented| - 1] == st.shown.value else st.leaving
  }

  lemma {:induction false} ShownIsLastPresented(staleAfterS: real, a: Id, es: seq<Input>)
    ensures Settles(Run(staleAfterS, a, es))
  {
    if es != [] { ShownIsLastPresented(staleAfterS, a, es[..|es| - 1]); }
  }

  lemma OrderedOneMore(us: seq<TrackUpdate>, u: TrackUpdate)
    ensures InOrder(us + [u]) <==> InOrder(us) && (us == [] || us[|us| - 1].updatedAt <= u.updatedAt)
  {
    var (longer, n) := (us + [u], |us|);
    if InOrder(longer) {
      forall i, j | 0 <= i <= j < n ensures us[i].updatedAt <= us[j].updatedAt {
        assert longer[i].updatedAt <= longer[j].updatedAt;
      }
      if us != [] { assert longer[n - 1].updatedAt <= longer[n].updatedAt; }
    } else if us == [] || us[n - 1].updatedAt <= u.updatedAt {
      var i, j :| 0 <= i <= j < |longer| && longer[i].updatedAt > longer[j].updatedAt;
      assert !(us[i].updatedAt <= us[if j < n then j else n - 1].updatedAt);
    }
  }

  /** One more input leaves the updates in order unless it brings the track back older. */
  lemma OrderOnward(staleAfterS: real, a: Id, es: seq<Input>)
    requires |es| > 0 && InOrder(Run(staleAfterS, a, es[..|es| - 1]).presented)
    ensures InOrder(Run(staleAfterS, a, es).presented) <==> !ComesBackOlder(staleAfterS, a, es, |es| - 1)
  {
    hide InOrder, Run;
    var st := Run(staleAfterS, a, es[..|es| - 1]);
    ShownIsLastPresented(staleAfterS, a, es[..|es| - 1]);
    RunOnward(staleAfterS, a, es);
    NothingIsInOrder();
    if es[|es| - 1].Arrives? { OrderedOneMore(st.presented, es[|es| - 1].update); }
  }

  lemma RunOnward(staleAfterS: real, a: Id, es: seq<Input>)
    requires |es| > 0
    ensures Run(staleAfterS, a, es) == After(staleAfterS, a, Run(staleAfterS, a, es[..|es| - 1]), es[|es| - 1])
  {
  }

  lemma NothingIsInOrder()
    ensures InOrder([])
  {
  }

  lemma BackOlderInPrefix(staleAfterS: real, a: Id, es: seq<Input>, m: nat, n: nat)
    requires n < m <= |es|
    ensures ComesBackOlder(staleAfterS, a, es[..m], n) == ComesBackOlder(staleAfterS, a, es, n)
  {
    assert es[..m][..n] == es[..n];
  }

  /** The monitor is presented with a track's updates in order throughout a run exactly when the track
      never comes back older before a scan. */
  lemma {:induction false} PresentedInOrder(staleAfterS: real, a: Id, es: seq<Input>)
    ensures (forall m :: 0 <= m <= |es| ==> InOrder(Run(staleAfterS, a, es[..m]).presented))
       <==> forall n: nat :: !ComesBackOlder(staleAfterS, a, es, n)
  {
    hide InOrder, Run, ComesBackOlder;
    if es == [] {
      EmptyRun(staleAfterS, a);
    } else {
      var (before, last) := (es[..|es| - 1], |es| - 1);
      PresentedInOrder(staleAfterS, a, before);
      forall m | 0 <= m <= last ensures before[..m] == es[..m] {}
      assert es[..|es|] == es && es[..last] == before;
      forall n: nat | n < last
        ensures ComesBackOlder(staleAfterS, a, before, n) == ComesBackOlder(staleAfterS, a, es, n)
      {
        BackOlderInPrefix(staleAfterS, a, es, last, n);
      }
      forall n: nat | n >= |es| ensures !ComesBackOlder(staleAfterS, a, es, n) { PastTheEnd(staleAfterS, a, es, n); }
      PastTheEnd(staleAfterS, a, before, last);
      if forall n: nat :: !ComesBackOlder(staleAfterS, a, es, n) {
        forall n: nat ensures !ComesBackOlder(staleAfterS, a, before, n) {
          if n >= last { PastTheEnd(staleAfterS, a, before, n); }
        }
      }
      if InOrder(Run(staleAfterS, a, before).presented) { OrderOnward(staleAfterS, a, es); }
    }
  }

  lemma PastTheEnd(staleAfterS: real, a: Id, es: seq<Input>, n: nat)
    requires n >= |es|
    ensures !ComesBackOlder(staleAfterS, a, es, n)
  {
  }

  lemma EmptyRun(staleAfterS: real, a: Id)
    ensures InOrder(Run(staleAfterS, a, [][..0]).presented)
    ensures forall n: nat :: !ComesBackOlder(staleAfterS, a, [], n)
  {
  }

  /** A track at one time, its termination, and an older update before the next scan: the monitor is
      presented with the two out of order. */
  lemma RevivedTrackIsOutOfOrder(staleAfterS: real, u: TrackUpdate, gone: TrackUpdate, older: TrackUpdate)
    requires u.state != Terminated && gone.state == Terminated && older.state != Terminated
    requires u.aircraft == gone.aircraft == older.aircraft && older.updatedAt < u.updatedAt
    ensures Run(staleAfterS, u.aircraft, [Arrives(u), Arrives(gone), Arrives(older)]).presented == [u, older]
    ensures !InOrder([u, older])
  {
    var es := [Arrives(u), Arrives(gone), Arrives(older)];
    assert es[..2][..1][..0] == [] && es[..2][..1] == [Arrives(u)] && es[..2] == [Arrives(u), Arrives(gone)];
    assert Run(staleAfterS, u.aircraft, es[..2][..1]).presented == [u];
    assert [u, older][0].updatedAt > [u, older][1].updatedAt;
  }

  // ----- What the picture shows -----

  /** Input `i` is an update that says the track is there. */
  predicate Brings(a: Id, es: seq<Input>, i: nat) {
    i < |es| && es[i].Arrives? && es[i].update.aircraft == a && es[i].update.state != Terminated
  }

  /** It takes an update of the track away: a termination, or a scan that finds the update too old. */
  predicate TakesAway(staleAfterS: real, a: Id, e: Input, updatedAt: real) {
    match e
    case Arrives(u) => u.aircraft == a && u.state == Terminated
    case Scans(now) => updatedAt < now - staleAfterS
  }

  /** Nothing since has taken the update away. */
  predicate Survives(staleAfterS: real, a: Id, es: seq<Input>, i: nat) {
    Brings(a, es, i) && forall j :: i < j < |es| ==> !TakesAway(staleAfterS, a, es[j], es[i].update.updatedAt)
  }

  /** It is the newest of those, the last of equally new ones. */
  ghost predicate IsNewest(staleAfterS: real, a: Id, es: seq<Input>, i: nat) {
    && Survives(staleAfterS, a, es, i)
    && forall k: nat :: Survives(staleAfterS, a, es, k) ==>
         es[k].update.updatedAt <= es[i].update.updatedAt
         && (k > i ==> es[k].update.updatedAt < es[i].update.updatedAt)
  }

  lemma SurvivesOnward(staleAfterS: real, a: Id, es: seq<Input>, i: nat)
    requires |es| > 0
    ensures var n := |es| - 1;
      Survives(staleAfterS, a, es, i) <==>
        if i < n then Survives(staleAfterS, a, es[..n], i) && !TakesAway(staleAfterS, a, es[n], es[i].update.updatedAt)
        else i == n && Brings(a, es, n)
  {
    hide TakesAway;
    var (n, before) := (|es| - 1, es[..|es| - 1]);
    forall j | 0 <= j < n ensures before[j] == es[j] {}
    if i < n && Survives(staleAfterS, a, before, i)
       && !TakesAway(staleAfterS, a, es[n], es[i].update.updatedAt) {
      forall j | i < j < |es| ensures !TakesAway(staleAfterS, a, es[j], es[i].update.updatedAt) {
        if j < n { assert !TakesAway(staleAfterS, a, before[j], before[i].update.updatedAt); }
      }
    }
    if i < n && Survives(staleAfterS, a, es, i) {
      forall j | i < j < n ensures !TakesAway(staleAfterS, a, before[j], before[i].update.updatedAt) {
        assert !TakesAway(staleAfterS, a, es[j], es[i].update.updatedAt);
      }
    }
  }

  /** The picture shows of the track the update at `i`, or nothing when no update survives. */
  ghost predicate ShowsNewest(staleAfterS: real, a: Id, es: seq<Input>, shown: Option<TrackUpdate>) {
    if shown.None? then forall i: nat :: !Survives(staleAfterS, a, es, i)
    else exists i: nat :: i < |es| && IsNewest(staleAfterS, a, es, i) && es[i] == Arrives(shown.value)
  }

  lemma SurvivorIsThere(staleAfterS: real, a: Id, es: seq<Input>, k: nat)
    ensures Survives(staleAfterS, a, es, k) ==> k < |es| && es[k].Arrives?
  {
  }

  lemma NewestSurvives(staleAfterS: real, a: Id, es: seq<Input>, i: nat)
    requires IsNewest(staleAfterS, a, es, i)
    ensures Survives(staleAfterS, a, es, i) && i < |es| && es[i].Arrives?
  {
  }

  /** One more input, when the picture showed nothing. */
  lemma NothingShownOnward(staleAfterS: real, a: Id, es: seq<Input>)
    requires |es| > 0
    requires var before := es[..|es| - 1]; forall i: nat :: !Survives(staleAfterS, a, before, i)
    ensures Brings(a, es, |es| - 1) ==> IsNewest(staleAfterS, a, es, |es| - 1)
    ensures Brings(a, es, |es| - 1) || forall i: nat :: !Survives(staleAfterS, a, es, i)
  {
    hide Survives, Brings, TakesAway;
    forall i: nat ensures Survives(staleAfterS, a, es, i) <==> i == |es| - 1 && Brings(a, es, |es| - 1) {
      SurvivesOnward(staleAfterS, a, es, i);
    }
  }

  /** One more input, when it showed the update at `i`. */
  lemma ShownOnward(staleAfterS: real, a: Id, es: seq<Input>, i: nat)
    requires |es| > 0 && IsNewest(staleAfterS, a, es[..|es| - 1], i)
    ensures i < |es| - 1 && es[i].Arrives?
    ensures var (n, u) := (|es| - 1, es[i].update);
      if Brings(a, es, n) then
        IsNewest(staleAfterS, a, es, if es[n].update.updatedAt >= u.updatedAt then n else i)
      else if TakesAway(staleAfterS, a, es[n], u.updatedAt) then forall k: nat :: !Survives(staleAfterS, a, es, k)
      else IsNewest(staleAfterS, a, es, i)
  {
    hide Survives;
    var (n, before) := (|es| - 1, es[..|es| - 1]);
    forall k: nat ensures Survives(staleAfterS, a, before, k) ==> k < n && before[k].Arrives? {
      SurvivorIsThere(staleAfterS, a, before, k);
    }
    forall k: nat ensures Survives(staleAfterS, a, es, k) ==> k < |es| && es[k].Arrives? {
      SurvivorIsThere(staleAfterS, a, es, k);
    }
    NewestSurvives(staleAfterS, a, before, i);
    assert before[i] == es[i];
    forall k: nat
      ensures Survives(staleAfterS, a, es, k) ==> k <= n && (k == n ==> Brings(a, es, n))
      ensures k < n && Survives(staleAfterS, a, es, k) ==>
        && Survives(staleAfterS, a, before, k) && before[k] == es[k]
        && !TakesAway(staleAfterS, a, es[n], es[k].update.updatedAt)
    {
      SurvivesOnward(staleAfterS, a, es, k);
    }
    SurvivesOnward(staleAfterS, a, es, i);
    SurvivesOnward(staleAfterS, a, es, n);
  }

  lemma ShownStep(staleAfterS: real, a: Id, st: Standing, e: Input)
    ensures var shown := After(staleAfterS, a, st, e).shown;
      if e.Arrives? && e.update.aircraft == a && e.update.state != Terminated then
        shown == if st.shown.None? || e.update.updatedAt >= st.shown.value.updatedAt then Some(e.update) else st.shown
      else if st.shown.Some? && TakesAway(staleAfterS, a, e, st.shown.value.updatedAt) then shown == None
      else shown == st.shown
  {
  }

  /** Over any run the picture shows of each track the newest of its updates that no termination has followed and
      no scan has found too old, and nothing if there is none. */
  lemma {:induction false} ShownIsNewestSurviving(staleAfterS: real, a: Id, es: seq<Input>)
    ensures ShowsNewest(staleAfterS, a, es, Run(staleAfterS, a, es).shown)
  {
    hide After, Survives, IsNewest, TakesAway;
    if es == [] {
      NothingSurvives(staleAfterS, a);
    } else {
      var (n, before) := (|es| - 1, es[..|es| - 1]);
      ShownIsNewestSurviving(staleAfterS, a, before);
      var st := Run(staleAfterS, a, before);
      ShownStep(staleAfterS, a, st, es[n]);
      if st.shown.None? {
        NothingShownOnward(staleAfterS, a, es);
      } else {
        var i: nat :| i < n && IsNewest(staleAfterS, a, before, i) && before[i] == Arrives(st.shown.value);
        NewestSurvives(staleAfterS, a, before, i);
        ShownOnward(staleAfterS, a, es, i);
      }
    }
  }

  lemma NothingSurvives(staleAfterS: real, a: Id)
    ensures forall i: nat :: !Survives(staleAfterS, a, [], i)
  {
  }

  // ----- The newest data time -----

  /** The newest data time after a run whose inputs arrived at these times of day. */
  function LatestAfter(s: Monitor.Settings, staleAfterS: real, es: seq<Input>, walls: seq<real>): Option<real>
    requires |walls| == |es|
  {
    if es == [] then None
    else
      var n := |es| - 1;
      var latest := LatestAfter(s, staleAfterS, es[..n], walls[..n]);
      match es[n]
      case Arrives(u) => ClockAfter(latest, ViewAfter(s, staleAfterS, es[..n]).picture, u, walls[n])
      case Scans(_) => latest
  }

  /** The picture showed nothing newer of the track when input `i` arrived, it is no termination, and its time was no
      more than a day ahead of the time of day. */
  predicate Plausible(staleAfterS: real, es: seq<Input>, walls: seq<real>, i: nat)
    requires |walls| == |es|
  {
    i < |es| && es[i].Arrives?
    && var u := es[i].update;
    && Accepts(Run(staleAfterS, u.aircraft, es[..i]), u) && u.updatedAt <= walls[i] + 86400.0
  }

  lemma PlausibleInPrefix(staleAfterS: real, es: seq<Input>, walls: seq<real>, n: nat, i: nat)
    requires |walls| == |es| && i < n <= |es|
    ensures Plausible(staleAfterS, es[..n], walls[..n], i) == Plausible(staleAfterS, es, walls, i)
  {
    assert es[..n][..i] == es[..i];
  }

  lemma ClockTakesPlausible(s: Monitor.Settings, staleAfterS: real, es: seq<Input>, walls: seq<real>)
    requires |walls| == |es| > 0
    ensures var n := |es| - 1;
      var before := LatestAfter(s, staleAfterS, es[..n], walls[..n]);
      LatestAfter(s, staleAfterS, es, walls)
      == if Plausible(staleAfterS, es, walls, n) && (before.None? || es[n].update.updatedAt > before.value)
         then Some(es[n].update.updatedAt) else before
  {
    hide ViewAfter, Run;
    var n := |es| - 1;
    if es[n].Arrives? { MonitorHoldsThePresented(s, staleAfterS, es[..n], es[n].update.aircraft); }
  }

  /** Over any run the data time the scan clock goes by is the newest of the plausible updates, whatever came in which
      order, and none if none was plausible. */
  lemma {:induction false} ClockIsNewestPlausible(s: Monitor.Settings, staleAfterS: real, es: seq<Input>,
                                                  walls: seq<real>)
    requires |walls| == |es|
    ensures var latest := LatestAfter(s, staleAfterS, es, walls);
      && (latest.None? <==> forall i: nat :: !Plausible(staleAfterS, es, walls, i))
      && (latest.Some? ==>
            && (exists i: nat :: Plausible(staleAfterS, es, walls, i) && es[i].update.updatedAt == latest.value)
            && forall i: nat :: Plausible(staleAfterS, es, walls, i) ==> es[i].update.updatedAt <= latest.value)
  {
    hide Plausible, LatestAfter;
    if es == [] {
      NothingPlausible(s, staleAfterS);
    } else {
      var n := |es| - 1;
      ClockIsNewestPlausible(s, staleAfterS, es[..n], walls[..n]);
      ClockTakesPlausible(s, staleAfterS, es, walls);
      forall i: nat
        ensures i < n ==> Plausible(staleAfterS, es[..n], walls[..n], i) == Plausible(staleAfterS, es, walls, i)
        ensures Plausible(staleAfterS, es, walls, i) ==> i <= n && es[i].Arrives?
        ensures Plausible(staleAfterS, es[..n], walls[..n], i) ==> i < n && es[..n][i] == es[i]
      {
        PlausibleIsThere(staleAfterS, es, walls, i);
        PlausibleIsThere(staleAfterS, es[..n], walls[..n], i);
        if i < n { PlausibleInPrefix(staleAfterS, es, walls, n, i); }
      }
    }
  }

  lemma PlausibleIsThere(staleAfterS: real, es: seq<Input>, walls: seq<real>, i: nat)
    requires |walls| == |es|
    ensures Plausible(staleAfterS, es, walls, i) ==> i < |es| && es[i].Arrives?
  {
  }

  lemma NothingPlausible(s: Monitor.Settings, staleAfterS: real)
    ensures LatestAfter(s, staleAfterS, [], []).None?
    ensures forall i: nat :: !Plausible(staleAfterS, [], [], i)
  {
  }
}
