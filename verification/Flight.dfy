/** Where a simulated aircraft is (engine.py): what is left to climb, to accelerate and to turn after any number
    of steps of any lengths, when it is airborne, and along which line it moves. */
module Flight {
  import opened Prelude
  import opened Simulator

  // ----- Airborne, between commands -----

  function Flown(project: Projector, s: Truth, steps: seq<real>): Truth
    requires Forward(steps)
  {
    if steps == [] then s
    else Advanced(project, Flown(project, s, steps[..|steps| - 1]), steps[|steps| - 1], true)
  }

  /** Of the gap at first, what is left once `covered` of it has been closed: nothing, or the rest of it on its own
      side. */
  predicate Remains(gap: real, left: real, covered: real) {
    && Abs(left) == Max(0.0, Abs(gap) - covered)
    && (left > 0.0 ==> gap > 0.0) && (left < 0.0 ==> gap < 0.0)
  }

  lemma RemainsCompose(gap: real, between: real, left: real, a: real, b: real)
    requires a >= 0.0 && b >= 0.0 && Remains(gap, between, a) && Remains(between, left, b)
    ensures Remains(gap, left, a + b)
  {
  }

  lemma NothingCovered(gap: real)
    ensures Remains(gap, gap, 0.0)
  {
  }

  /** How much of its gap an axis has closed in `elapsed` seconds at its own rate: feet at feet per minute, knots
      at knots per second, degrees at degrees per second. */
  function Climbed(t: Targets, elapsed: real): real { t.climbRateFpm * elapsed / 60.0 }

  function Gained(t: Targets, elapsed: real): real { t.accelerationKtS * elapsed }

  function TurnedBy(t: Targets, elapsed: real): real { t.turnRateDegS * elapsed }

  /** What is left on each axis. */
  predicate Left(s: Truth, r: Truth, elapsed: real) {
    var t := s.targets;
    && r.targets == t && r.altitudeFt >= 0.0
    && Remains(t.altitudeFt - s.altitudeFt, t.altitudeFt - r.altitudeFt, Climbed(t, elapsed))
    && Remains(t.speedKt - s.speedKt, t.speedKt - r.speedKt, Gained(t, elapsed))
    && Remains(BearingDifference(s.trackDeg, t.trackDeg), BearingDifference(r.trackDeg, t.trackDeg),
               TurnedBy(t, elapsed))
  }

  lemma ChaseRemains(x: real, target: real, limit: real)
    requires limit >= 0.0
    ensures Remains(target - x, target - Chase(x, target, limit), limit)
  {
  }

  lemma TurnRemains(track: real, target: real, limit: real)
    requires limit >= 0.0
    ensures Remains(BearingDifference(track, target), BearingDifference(Turned(track, target, limit), target), limit)
  {
    hide BearingDifference, Turned;
    TurnClosesIn(track, target, limit);
  }

  lemma ReachIs(t: Targets, dt: real)
    requires Flyable(t) && dt > 0.0
    ensures Reach(t.climbRateFpm / 60.0, dt) == Climbed(t, dt) >= 0.0
    ensures Reach(t.accelerationKtS, dt) == Gained(t, dt) >= 0.0
    ensures Reach(t.turnRateDegS, dt) == TurnedBy(t, dt) >= 0.0
  {
    ProductIsNonNegative(t.climbRateFpm, dt);
    ProductIsNonNegative(t.accelerationKtS, dt);
    ProductIsNonNegative(t.turnRateDegS, dt);
    assert t.climbRateFpm / 60.0 * dt == t.climbRateFpm * dt / 60.0;
  }

  /** One step. */
  lemma StepLeaves(project: Projector, s: Truth, dt: real)
    requires Flyable(s.targets) && s.altitudeFt >= 0.0 && dt > 0.0
    ensures Left(s, Advanced(project, s, dt, true), dt)
  {
    hide Remains, BearingDifference, Turned, Chase, NormalizeBearing, Bounded, Climbed, Gained, TurnedBy, Reach;
    var t := s.targets;
    ReachIs(t, dt);
    AltitudeIsChased(s.altitudeFt, t.altitudeFt, Climbed(t, dt));
    ChaseRemains(s.altitudeFt, t.altitudeFt, Climbed(t, dt));
    ChaseRemains(s.speedKt, t.speedKt, Gained(t, dt));
    TurnRemains(s.trackDeg, t.trackDeg, TurnedBy(t, dt));
  }

  lemma LongerCovers(t: Targets, a: real, b: real)
    requires Flyable(t) && a >= 0.0 && b >= 0.0
    ensures Climbed(t, a) >= 0.0 && Climbed(t, b) >= 0.0 && Climbed(t, a + b) == Climbed(t, a) + Climbed(t, b)
    ensures Gained(t, a) >= 0.0 && Gained(t, b) >= 0.0 && Gained(t, a + b) == Gained(t, a) + Gained(t, b)
    ensures TurnedBy(t, a) >= 0.0 && TurnedBy(t, b) >= 0.0 && TurnedBy(t, a + b) == TurnedBy(t, a) + TurnedBy(t, b)
  {
    ProductIsNonNegative(t.climbRateFpm, a);
    ProductIsNonNegative(t.climbRateFpm, b);
    ProductIsNonNegative(t.accelerationKtS, a);
    ProductIsNonNegative(t.accelerationKtS, b);
    ProductIsNonNegative(t.turnRateDegS, a);
    ProductIsNonNegative(t.turnRateDegS, b);
  }

  lemma LeftCompose(s: Truth, q: Truth, r: Truth, a: real, b: real)
    requires Flyable(s.targets) && a >= 0.0 && b >= 0.0 && Left(s, q, a) && Left(q, r, b)
    ensures Left(s, r, a + b)
  {
    hide Remains, BearingDifference, Climbed, Gained, TurnedBy;
    var t := s.targets;
    LongerCovers(t, a, b);
    RemainsCompose(t.altitudeFt - s.altitudeFt, t.altitudeFt - q.altitudeFt, t.altitudeFt - r.altitudeFt,
                   Climbed(t, a), Climbed(t, b));
    RemainsCompose(t.speedKt - s.speedKt, t.speedKt - q.speedKt, t.speedKt - r.speedKt, Gained(t, a), Gained(t, b));
    RemainsCompose(BearingDifference(s.trackDeg, t.trackDeg), BearingDifference(q.trackDeg, t.trackDeg),
                   BearingDifference(r.trackDeg, t.trackDeg), TurnedBy(t, a), TurnedBy(t, b));
  }

  lemma NothingFlown(s: Truth)
    requires s.altitudeFt >= 0.0
    ensures Left(s, s, 0.0)
  {
    hide BearingDifference, Remains;
    NothingCovered(s.targets.altitudeFt - s.altitudeFt);
    NothingCovered(s.targets.speedKt - s.speedKt);
    NothingCovered(BearingDifference(s.trackDeg, s.targets.trackDeg));
  }

  /** However the time is cut into steps, each axis has closed its gap by its own rate times the time, and holds
      its target from then on. */
  lemma {:induction false} WhatIsLeft(project: Projector, s: Truth, steps: seq<real>)
    requires Forward(steps) && Flyable(s.targets) && s.altitudeFt >= 0.0
    ensures Left(s, Flown(project, s, steps), Clock(steps))
  {
    hide Left, Advanced;
    if steps == [] {
      NothingFlown(s);
    } else {
      var (before, dt) := (steps[..|steps| - 1], steps[|steps| - 1]);
      WhatIsLeft(project, s, before);
      var q := Flown(project, s, before);
      LeftKeeps(s, q, Clock(before));
      StepLeaves(project, q, dt);
      ClockIsMonotone(steps, |steps| - 1);
      ClockIsMonotone(before, 0);
      LeftCompose(s, q, Advanced(project, q, dt, true), Clock(before), dt);
    }
  }

  lemma LeftKeeps(s: Truth, r: Truth, elapsed: real)
    requires Left(s, r, elapsed)
    ensures r.targets == s.targets && r.altitudeFt >= 0.0
  {
  }

  /** Each axis is at its target exactly when its own rate covers its own gap in this time. */
  predicate ReachedByRates(s: Truth, r: Truth, elapsed: real) {
    var t := s.targets;
    && (r.altitudeFt == t.altitudeFt <==> t.climbRateFpm / 60.0 * elapsed >= Abs(t.altitudeFt - s.altitudeFt))
    && (r.speedKt == t.speedKt <==> t.accelerationKtS * elapsed >= Abs(t.speedKt - s.speedKt))
    && (BearingDifference(r.trackDeg, t.trackDeg) == 0.0
        <==> t.turnRateDegS * elapsed >= Abs(BearingDifference(s.trackDeg, t.trackDeg)))
  }

  /** So each target is reached exactly when its own rate has covered its own gap. */
  lemma ReachedExactlyWhenCovered(project: Projector, s: Truth, steps: seq<real>)
    requires Forward(steps) && Flyable(s.targets) && s.altitudeFt >= 0.0
    ensures ReachedByRates(s, Flown(project, s, steps), Clock(steps))
  {
    hide ReachedByRates, Flown, Left, Clock, Flyable;
    WhatIsLeft(project, s, steps);
    LeftMeansReached(s, Flown(project, s, steps), Clock(steps));
  }

  lemma LeftMeansReached(s: Truth, r: Truth, elapsed: real)
    requires Left(s, r, elapsed)
    ensures ReachedByRates(s, r, elapsed)
  {
    hide BearingDifference, Remains, Climbed, Gained, TurnedBy, Abs;
    var t := s.targets;
    CoveredIs(t, elapsed);
    ReachedWhen(t.altitudeFt - s.altitudeFt, t.altitudeFt - r.altitudeFt, Climbed(t, elapsed));
    ReachedWhen(t.speedKt - s.speedKt, t.speedKt - r.speedKt, Gained(t, elapsed));
    ReachedWhen(BearingDifference(s.trackDeg, t.trackDeg), BearingDifference(r.trackDeg, t.trackDeg),
                TurnedBy(t, elapsed));
  }

  lemma ReachedWhen(gap: real, left: real, covered: real)
    requires Remains(gap, left, covered)
    ensures left == 0.0 <==> covered >= Abs(gap)
  {
  }

  lemma CoveredIs(t: Targets, elapsed: real)
    ensures Climbed(t, elapsed) == t.climbRateFpm / 60.0 * elapsed && Gained(t, elapsed) == t.accelerationKtS * elapsed
    ensures TurnedBy(t, elapsed) == t.turnRateDegS * elapsed
  {
  }

  // ----- Along which line -----

  lemma DifferenceOfTurn(track: real, turn: real)
    requires -180.0 < turn <= 180.0
    ensures BearingDifference(track, NormalizeBearing(track + turn)) == turn
  {
    hide BearingDifference, NormalizeBearing;
    NormalizeKeepsDirection(track + turn);
    var k: int :| NormalizeBearing(track + turn) == track + turn + Turns(k);
    assert Turns(-k) == -Turns(k);
    DifferenceIsUnique(track, NormalizeBearing(track + turn), turn, -k);
  }

  /** A step moves the aircraft at the mean of its speeds along the heading half way through its turn. */
  lemma MovesAlongTheMiddle(project: Projector, s: Truth, dt: real) returns (mid: real)
    requires Flyable(s.targets) && dt > 0.0
    ensures var r := Advanced(project, s, dt, true);
      && r.airborne && 0.0 <= mid < 360.0
      && 2.0 * BearingDifference(s.trackDeg, mid) == BearingDifference(s.trackDeg, r.trackDeg)
      && (r.lat, r.lon) == project(s.lat, s.lon, mid, (s.speedKt + r.speedKt) / 2.0, dt)
  {
    hide BearingDifference, NormalizeBearing, Reach, SpeedAfter, AltitudeAfter, ClimbOver;
    var t := s.targets;
    RateIsNonNegative(t, dt);
    var turn := Bounded(BearingDifference(s.trackDeg, t.trackDeg), Reach(t.turnRateDegS, dt));
    mid := NormalizeBearing(s.trackDeg + turn / 2.0);
    DifferenceOfTurn(s.trackDeg, turn);
    DifferenceOfTurn(s.trackDeg, turn / 2.0);
  }

  lemma RateIsNonNegative(t: Targets, dt: real)
    requires Flyable(t) && dt > 0.0
    ensures Reach(t.turnRateDegS, dt) >= 0.0
  {
    ProductIsNonNegative(t.turnRateDegS, dt);
  }

  // ----- From the start of the run -----

  /** An aircraft is airborne exactly from the first step that ends at its entry time or later, and until then
      stays where and as it started, though it takes its commands. */
  lemma {:induction false} AirborneFromEntry(project: Projector, spec: Spec, steps: seq<real>)
    requires Forward(steps)
    ensures var r := Journey(project, spec, steps);
      && r.targets == TargetsAfter(spec, steps)
      && (steps != [] ==> (r.airborne <==> Clock(steps) >= spec.entryTimeS))
      && (steps != [] && Clock(steps) < spec.entryTimeS ==>
            r == spec.initial.(targets := TargetsAfter(spec, steps), airborne := false))
  {
    hide Commanded, SpeedAfter, AltitudeAfter, HeadingAfter, ClimbOver, NormalizeBearing, BearingDifference, Bounded,
      Reach;
    if steps != [] {
      var before := steps[..|steps| - 1];
      AirborneFromEntry(project, spec, before);
      ClockIsMonotone(steps, |steps| - 1);
    }
  }

  /** No command of the plan falls due between the two times. */
  predicate Undisturbed(spec: Spec, from: real, to: real) {
    forall i :: 0 <= i < |spec.plan| ==> !(from < spec.plan[i].at <= to)
  }

  lemma {:induction false} NothingDue(plan: seq<Command>, t: Targets, from: real, to: real)
    requires forall i :: 0 <= i < |plan| ==> !(from < plan[i].at <= to)
    ensures Firing(plan, from, to) == []
  {
    if plan != [] { NothingDue(plan[..|plan| - 1], t, from, to); }
  }

  /** Once airborne, as long as no command falls due, a run of the simulation is a flight between commands. */
  lemma {:induction false} JourneyIsFlight(project: Projector, spec: Spec, steps: seq<real>, p: nat)
    requires Forward(steps) && p <= |steps| && Undisturbed(spec, Clock(steps[..p]), Clock(steps))
    requires p < |steps| ==> Clock(steps[..p + 1]) >= spec.entryTimeS
    ensures Forward(steps[..p]) && Forward(steps[p..])
    ensures Journey(project, spec, steps) == Flown(project, Journey(project, spec, steps[..p]), steps[p..])
  {
    hide Advanced, Firing, Journey, Flown;
    if p == |steps| {
      assert steps[..p] == steps;
      FlownNowhere(project, Journey(project, spec, steps));
    } else {
      var (before, n) := (steps[..|steps| - 1], |steps| - 1);
      assert before[..p] == steps[..p] && before + [steps[n]] == steps;
      assert before[p..] + [steps[n]] == steps[p..];
      ClockIsMonotone(steps, n);
      ClockIsMonotone(steps, p + 1);
      ClockIsMonotone(before, p);
      if p < n { assert before[..p + 1] == steps[..p + 1]; } else { assert steps[..p + 1] == steps; }
      JourneyIsFlight(project, spec, before, p);
      var q := Journey(project, spec, before);
      UndisturbedStep(project, spec, q, Clock(before), steps[n]);
      JourneyExtends(project, spec, before, steps[n]);
      FlownExtends(project, Journey(project, spec, steps[..p]), before[p..], steps[n]);
    }
  }

  lemma UndisturbedStep(project: Projector, spec: Spec, s: Truth, from: real, dt: real)
    requires dt > 0.0 && Undisturbed(spec, from, from + dt) && from + dt >= spec.entryTimeS
    ensures Stepped(project, spec, s, from, dt) == Advanced(project, s, dt, true)
  {
    hide Advanced;
    NothingDue(spec.plan, s.targets, from, from + dt);
  }

  lemma FlownNowhere(project: Projector, s: Truth)
    ensures Flown(project, s, []) == s
  {
  }

  lemma FlownExtends(project: Projector, s: Truth, steps: seq<real>, dt: real)
    requires Forward(steps) && dt > 0.0
    ensures Forward(steps + [dt])
      && Flown(project, s, steps + [dt]) == Advanced(project, Flown(project, s, steps), dt, true)
  {
    hide Advanced;
    assert (steps + [dt])[..|steps|] == steps;
  }

  // ----- What the plan has commanded -----

  predicate SameAxis(c: Command, d: Command) {
    (c.TurnTo? && d.TurnTo?) || (c.ClimbTo? && d.ClimbTo?) || (c.ChangeSpeed? && d.ChangeSpeed?)
    || (c.SetSquawk? && d.SetSquawk?)
  }

  /** Command `i` is the last listed of its kind to have fallen due by this time. */
  predicate IsLastDue(plan: seq<Command>, i: nat, to: real) {
    && i < |plan| && 0.0 < plan[i].at <= to
    && forall j :: i < j < |plan| && 0.0 < plan[j].at <= to ==> !SameAxis(plan[i], plan[j])
  }

  /** What the command says is what the aircraft has been told on that axis. */
  predicate Commands(c: Command, t: Targets) {
    && (c.TurnTo? ==> t.trackDeg == c.headingDeg && t.turnRateDegS == c.rateDegS)
    && (c.ClimbTo? ==> t.altitudeFt == c.altitudeFt && t.climbRateFpm == c.rateFpm)
    && (c.ChangeSpeed? ==> t.speedKt == c.speedKt && t.accelerationKtS == c.accelerationKtS)
    && (c.SetSquawk? ==> t.squawk == Some(c.squawk))
  }

  lemma {:induction false} LastDueIsObeyed(plan: seq<Command>, t: Targets, i: nat, to: real)
    requires IsLastDue(plan, i, to)
    ensures Commands(plan[i], Commanded(t, plan, 0.0, to))
  {
    hide Commands, SameAxis;
    var (n, before) := (|plan| - 1, plan[..|plan| - 1]);
    CommandedByOneMore(t, plan, to);
    if i == n {
      ObeyingTells(Commanded(t, before, 0.0, to), plan[n]);
    } else {
      assert before[i] == plan[i];
      assert forall j :: 0 <= j < n ==> before[j] == plan[j];
      LastDueIsObeyed(before, t, i, to);
      if Fires(plan[n], 0.0, to) { OtherAxesStand(Commanded(t, before, 0.0, to), plan[i], plan[n]); }
    }
  }

  lemma CommandedByOneMore(t: Targets, plan: seq<Command>, to: real)
    requires plan != []
    ensures var (n, before) := (|plan| - 1, plan[..|plan| - 1]);
      Commanded(t, plan, 0.0, to)
      == if Fires(plan[n], 0.0, to) then Obey(Commanded(t, before, 0.0, to), plan[n]) else Commanded(t, before, 0.0, to)
  {
    hide Obey;
    var (n, before) := (|plan| - 1, plan[..|plan| - 1]);
    LastFires(plan, 0.0, to);
    var fired := Firing(before, 0.0, to);
    if Fires(plan[n], 0.0, to) {
      assert (fired + [plan[n]])[..|fired|] == fired;
    } else {
      assert fired + [] == fired;
    }
  }

  lemma ObeyingTells(t: Targets, c: Command)
    ensures Commands(c, Obey(t, c))
  {
  }

  lemma OtherAxesStand(t: Targets, c: Command, d: Command)
    requires Commands(c, t) && !SameAxis(c, d)
    ensures Commands(c, Obey(t, d))
  {
  }

  lemma {:induction false} NothingDueNothingObeyed(plan: seq<Command>, t: Targets, kind: Command, to: real)
    requires forall j :: 0 <= j < |plan| && 0.0 < plan[j].at <= to ==> !SameAxis(kind, plan[j])
    ensures SameOnAxis(kind, Commanded(t, plan, 0.0, to), t)
  {
    hide SameAxis, SameOnAxis;
    if plan == [] {
      NothingCommanded(t, to);
      SameAsItself(kind, t);
    } else {
      var (n, before) := (|plan| - 1, plan[..|plan| - 1]);
      assert forall j :: 0 <= j < n ==> before[j] == plan[j];
      NothingDueNothingObeyed(before, t, kind, to);
      CommandedByOneMore(t, plan, to);
      if Fires(plan[n], 0.0, to) { OtherAxisSame(kind, plan[n], Commanded(t, before, 0.0, to), t); }
    }
  }

  lemma NothingCommanded(t: Targets, to: real)
    ensures Commanded(t, [], 0.0, to) == t
  {
  }

  lemma SameAsItself(kind: Command, t: Targets)
    ensures SameOnAxis(kind, t, t)
  {
  }

  lemma OtherAxisSame(kind: Command, d: Command, t: Targets, first: Targets)
    requires SameOnAxis(kind, t, first) && !SameAxis(kind, d)
    ensures SameOnAxis(kind, Obey(t, d), first)
  {
  }

  /** The two say the same on the axis of the command. */
  predicate SameOnAxis(kind: Command, t: Targets, u: Targets) {
    && (kind.TurnTo? ==> t.trackDeg == u.trackDeg && t.turnRateDegS == u.turnRateDegS)
    && (kind.ClimbTo? ==> t.altitudeFt == u.altitudeFt && t.climbRateFpm == u.climbRateFpm)
    && (kind.ChangeSpeed? ==> t.speedKt == u.speedKt && t.accelerationKtS == u.accelerationKtS)
    && (kind.SetSquawk? ==> t.squawk == u.squawk)
  }

  /** However a run over a sorted plan is cut into steps, an aircraft has been told on each axis what the last command
      of that kind to fall due says, and what it was first told if none has. */
  lemma TargetsAreLastDue(project: Projector, spec: Spec, steps: seq<real>, i: nat, kind: Command)
    requires Forward(steps) && Sorted(spec.plan)
    ensures var (t, now) := (Journey(project, spec, steps).targets, Clock(steps));
      && (IsLastDue(spec.plan, i, now) ==> Commands(spec.plan[i], t))
      && ((forall j :: 0 <= j < |spec.plan| && 0.0 < spec.plan[j].at <= now ==> !SameAxis(kind, spec.plan[j])) ==>
            SameOnAxis(kind, t, spec.initial.targets))
  {
    hide Commands, SameAxis, SameOnAxis, Journey, IsLastDue, Commanded;
    AirborneFromEntry(project, spec, steps);
    TargetsDependOnlyOnTime(spec, steps);
    var (t, now) := (spec.initial.targets, Clock(steps));
    if IsLastDue(spec.plan, i, now) { LastDueIsObeyed(spec.plan, t, i, now); }
    if forall j :: 0 <= j < |spec.plan| && 0.0 < spec.plan[j].at <= now ==> !SameAxis(kind, spec.plan[j]) {
      NothingDueNothingObeyed(spec.plan, t, kind, now);
    }
  }
}
