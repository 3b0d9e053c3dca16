/** The flight simulator (engine.py, geodesy.py): when plan commands fire, and how an aircraft chases
    its targets. */
module Simulator {
  import opened Prelude

  datatype Command =
    | TurnTo(at: real, headingDeg: real, rateDegS: real)
    | ClimbTo(at: real, altitudeFt: real, rateFpm: real)
    | ChangeSpeed(at: real, speedKt: real, accelerationKtS: real)
    | SetSquawk(at: real, squawk: string)

  /** What the autopilot has been told, and the rates at which it obeys. */
  datatype Targets = Targets(
    trackDeg: real,
    turnRateDegS: real,
    altitudeFt: real,
    climbRateFpm: real,
    speedKt: real,
    accelerationKtS: real,
    squawk: Option<string>)

  datatype Truth = Truth(
    lat: real,
    lon: real,
    altitudeFt: real,
    speedKt: real,
    trackDeg: real,
    verticalRateFpm: real,
    airborne: bool,
    targets: Targets)

  /** A scripted aircraft. */
  datatype Spec = Spec(initial: Truth, entryTimeS: real, plan: seq<Command>)

  // ----- Commands -----

  function Obey(t: Targets, c: Command): Targets {
    match c
    case TurnTo(_, heading, rate) => t.(trackDeg := heading, turnRateDegS := rate)
    case ClimbTo(_, altitude, rate) => t.(altitudeFt := altitude, climbRateFpm := rate)
    case ChangeSpeed(_, speed, acceleration) => t.(speedKt := speed, accelerationKtS := acceleration)
    case SetSquawk(_, squawk) => t.(squawk := Some(squawk))
  }

  /** A step from `from` to `to` fires the commands in (from, to]. */
  predicate Fires(c: Command, from: real, to: real) {
    from < c.at <= to
  }

  /** The commands a step fires, in plan order. */
  function Firing(plan: seq<Command>, from: real, to: real): seq<Command> {
    if plan == [] then []
    else
      var c := plan[|plan| - 1];
      Firing(plan[..|plan| - 1], from, to) + if Fires(c, from, to) then [c] else []
  }

  function ObeyAll(t: Targets, commands: seq<Command>): Targets {
    if commands == [] then t else Obey(ObeyAll(t, commands[..|commands| - 1]), commands[|commands| - 1])
  }

  function Commanded(t: Targets, plan: seq<Command>, from: real, to: real): Targets {
    ObeyAll(t, Firing(plan, from, to))
  }

  /** The program's loop over the plan. */
  method ApplyCommands(t: Targets, plan: seq<Command>, from: real, to: real) returns (r: Targets)
    ensures r == Commanded(t, plan, from, to)
  {
    r := t;
    for i := 0 to |plan|
      invariant r == Commanded(t, plan[..i], from, to)
    {
      assert plan[..i + 1][..i] == plan[..i];
      if !Fires(plan[i], from, to) {
        assert Firing(plan[..i + 1], from, to) == Firing(plan[..i], from, to);
        continue;
      }
      var before := Firing(plan[..i], from, to);
      assert (before + [plan[i]])[..|before|] == before;
      r := Obey(r, plan[i]);
    }
    assert plan[..|plan|] == plan;
  }

  predicate Sorted(plan: seq<Command>) {
    forall i, j :: 0 <= i <= j < |plan| ==> plan[i].at <= plan[j].at
  }

  lemma {:induction false} ObeyAllConcat(t: Targets, a: seq<Command>, b: seq<Command>)
    ensures ObeyAll(t, a + b) == ObeyAll(ObeyAll(t, a), b)
  {
    if b == [] {
      assert a + b == a;
    } else {
      assert (a + b)[..|a + b| - 1] == a + b[..|b| - 1];
      ObeyAllConcat(t, a, b[..|b| - 1]);
    }
  }

  /** In a plan sorted by time, what a step fires is what its first part fires, then what its second
      part fires. */
  lemma {:induction false} FiringSplits(plan: seq<Command>, a: real, b: real, c: real)
    requires Sorted(plan) && a <= b <= c
    ensures Firing(plan, a, c) == Firing(plan, a, b) + Firing(plan, b, c)
  {
    hide Firing;
    if plan == [] {
      NoCommandFires(a, b);
      NoCommandFires(a, c);
      NoCommandFires(b, c);
    } else {
      var (before, last) := (plan[..|plan| - 1], plan[|plan| - 1]);
      LastFires(plan, a, b);
      LastFires(plan, a, c);
      LastFires(plan, b, c);
      FiringSplits(before, a, b, c);
      if Fires(last, a, b) { NothingLater(before, b, c); }
    }
  }

  lemma NoCommandFires(from: real, to: real)
    ensures Firing([], from, to) == []
  {
  }

  lemma LastFires(plan: seq<Command>, from: real, to: real)
    requires plan != []
    ensures Firing(plan, from, to) == Firing(plan[..|plan| - 1], from, to)
                                      + if Fires(plan[|plan| - 1], from, to) then [plan[|plan| - 1]] else []
  {
  }

  /** If every command is due by `b`, none fires after it. */
  lemma {:induction false} NothingLater(plan: seq<Command>, b: real, c: real)
    requires forall k :: 0 <= k < |plan| ==> plan[k].at <= b
    ensures Firing(plan, b, c) == []
  {
    if plan != [] { NothingLater(plan[..|plan| - 1], b, c); }
  }

  /** Cutting a step in two changes no target of an aircraft whose plan is in time order. */
  lemma CuttingAStep(t: Targets, plan: seq<Command>, a: real, b: real, c: real)
    requires Sorted(plan) && a <= b <= c
    ensures Commanded(Commanded(t, plan, a, b), plan, b, c) == Commanded(t, plan, a, c)
  {
    FiringSplits(plan, a, b, c);
    ObeyAllConcat(t, Firing(plan, a, b), Firing(plan, b, c));
  }

  /** The four things a command can set, and what it sets them to. */
  datatype Axis = Heading | Level | Pace | Code

  datatype Setting = Chased(target: real, rate: real) | Shown(squawk: Option<string>)

  function AxisOf(c: Command): Axis {
    match c
    case TurnTo(_, _, _) => Heading
    case ClimbTo(_, _, _) => Level
    case ChangeSpeed(_, _, _) => Pace
    case SetSquawk(_, _) => Code
  }

  function EffectOf(c: Command): Setting {
    match c
    case TurnTo(_, heading, rate) => Chased(heading, rate)
    case ClimbTo(_, altitude, rate) => Chased(altitude, rate)
    case ChangeSpeed(_, speed, acceleration) => Chased(speed, acceleration)
    case SetSquawk(_, squawk) => Shown(Some(squawk))
  }

  function SettingOf(t: Targets, axis: Axis): Setting {
    match axis
    case Heading => Chased(t.trackDeg, t.turnRateDegS)
    case Level => Chased(t.altitudeFt, t.climbRateFpm)
    case Pace => Chased(t.speedKt, t.accelerationKtS)
    case Code => Shown(t.squawk)
  }

  /** The last listed command on an axis. */
  function LastOn(commands: seq<Command>, axis: Axis): (r: Option<Command>)
    ensures r.Some? ==> AxisOf(r.value) == axis
  {
    if commands == [] then None
    else if AxisOf(commands[|commands| - 1]) == axis then Some(commands[|commands| - 1])
    else LastOn(commands[..|commands| - 1], axis)
  }

  /** Obeying commands in turn leaves each axis as the last of them on it says. */
  lemma {:induction false} LastCommandDecides(t: Targets, commands: seq<Command>, axis: Axis)
    ensures SettingOf(ObeyAll(t, commands), axis)
         == var last := LastOn(commands, axis); if last.Some? then EffectOf(last.value) else SettingOf(t, axis)
  {
    if commands != [] { LastCommandDecides(t, commands[..|commands| - 1], axis); }
  }

  lemma {:induction false} LastOnGrows(commands: seq<Command>, c: Command, axis: Axis)
    ensures LastOn(commands + [c], axis) == if AxisOf(c) == axis then Some(c) else LastOn(commands, axis)
  {
    assert (commands + [c])[..|commands|] == commands;
  }

  /** The last command a step fires on an axis, against those its two parts fire. */
  lemma {:induction false} LastOfParts(plan: seq<Command>, a: real, b: real, c: real, axis: Axis)
    requires a <= b <= c
    ensures LastOn(Firing(plan, b, c), axis).Some? ==> LastOn(Firing(plan, a, c), axis).Some?
    ensures LastOn(Firing(plan, b, c), axis).None? ==>
      LastOn(Firing(plan, a, c), axis) == LastOn(Firing(plan, a, b), axis)
  {
    hide AxisOf;
    if plan != [] {
      var (before, last) := (plan[..|plan| - 1], plan[|plan| - 1]);
      LastOfParts(before, a, b, c, axis);
      LastOnGrows(Firing(before, a, b), last, axis);
      LastOnGrows(Firing(before, b, c), last, axis);
      LastOnGrows(Firing(before, a, c), last, axis);
      FiringNext(plan, a, b);
      FiringNext(plan, b, c);
      FiringNext(plan, a, c);
    }
  }

  lemma FiringNext(plan: seq<Command>, from: real, to: real)
    requires plan != []
    ensures var before := Firing(plan[..|plan| - 1], from, to);
      Firing(plan, from, to) == if Fires(plan[|plan| - 1], from, to) then before + [plan[|plan| - 1]] else before
  {
    var before := Firing(plan[..|plan| - 1], from, to);
    assert before + [] == before;
  }

  /** On every axis, the last listed command due after the cut says the same as the last listed in the
      whole step. */
  predicate CutIsHarmless(plan: seq<Command>, a: real, b: real, c: real) {
    forall axis :: LastOn(Firing(plan, b, c), axis).Some? && LastOn(Firing(plan, a, c), axis).Some? ==>
      EffectOf(LastOn(Firing(plan, b, c), axis).value) == EffectOf(LastOn(Firing(plan, a, c), axis).value)
  }

  /** Cutting a step in two leaves the same targets exactly when the cut is harmless, whatever the plan
      and whatever the targets were. */
  lemma CutMattersExactlyWhenOvertaken(t: Targets, plan: seq<Command>, a: real, b: real, c: real)
    requires a <= b <= c
    ensures Commanded(Commanded(t, plan, a, b), plan, b, c) == Commanded(t, plan, a, c)
      <==> CutIsHarmless(plan, a, b, c)
  {
    hide Firing, ObeyAll, LastOn, EffectOf, AxisOf;
    var (two, one) := (Commanded(Commanded(t, plan, a, b), plan, b, c), Commanded(t, plan, a, c));
    SameSettings(two, one);
    forall axis
      ensures SettingOf(two, axis) == SettingOf(one, axis) <==>
        (LastOn(Firing(plan, b, c), axis).Some? && LastOn(Firing(plan, a, c), axis).Some? ==>
          EffectOf(LastOn(Firing(plan, b, c), axis).value) == EffectOf(LastOn(Firing(plan, a, c), axis).value))
    {
      LastCommandDecides(t, Firing(plan, a, c), axis);
      LastCommandDecides(t, Firing(plan, a, b), axis);
      LastCommandDecides(Commanded(t, plan, a, b), Firing(plan, b, c), axis);
      LastOfParts(plan, a, b, c, axis);
    }
  }

  lemma SameSettings(s: Targets, t: Targets)
    ensures s == t <==> forall axis :: SettingOf(s, axis) == SettingOf(t, axis)
  {
    if forall axis :: SettingOf(s, axis) == SettingOf(t, axis) {
      assert SettingOf(s, Heading) == SettingOf(t, Heading) && SettingOf(s, Level) == SettingOf(t, Level);
      assert SettingOf(s, Pace) == SettingOf(t, Pace) && SettingOf(s, Code) == SettingOf(t, Code);
    }
  }

  /** Commands are applied in plan order, so a plan out of time order can end with different targets:
      here a turn planned later but listed first is lost in one step and obeyed in two. */
  lemma UnsortedPlanDependsOnSteps(t: Targets)
    ensures var plan := [TurnTo(20.0, 90.0, 3.0), TurnTo(10.0, 180.0, 3.0)];
      && Commanded(t, plan, 0.0, 20.0).trackDeg == 180.0
      && Commanded(Commanded(t, plan, 0.0, 10.0), plan, 10.0, 20.0).trackDeg == 90.0
  {
    hide Firing, ObeyAll, Commanded;
    var (one, two) := (TurnTo(20.0, 90.0, 3.0), TurnTo(10.0, 180.0, 3.0));
    var s := Commanded(t, [one, two], 0.0, 10.0);
    CommandedByTwo(t, one, two, 0.0, 20.0);
    CommandedByTwo(t, one, two, 0.0, 10.0);
    CommandedByTwo(s, one, two, 10.0, 20.0);
  }

  /** A step over a plan of two commands obeys first the one and then the other, as they fire. */
  lemma CommandedByTwo(t: Targets, one: Command, two: Command, from: real, to: real)
    ensures var after := if Fires(one, from, to) then Obey(t, one) else t;
      Commanded(t, [one, two], from, to) == if Fires(two, from, to) then Obey(after, two) else after
  {
    hide Obey, Fires;
    FiringOfTwo(one, two, from, to);
    ObeyingUpToTwo(t, one, two);
  }

  lemma FiringOfTwo(one: Command, two: Command, from: real, to: real)
    ensures Firing([one, two], from, to)
         == if Fires(one, from, to) then if Fires(two, from, to) then [one, two] else [one]
            else if Fires(two, from, to) then [two] else []
  {
    hide Fires;
    assert [one, two][..1] == [one] && [one][..0] == [];
    assert Firing([one], from, to) == if Fires(one, from, to) then [one] else [];
  }

  lemma ObeyingUpToTwo(t: Targets, one: Command, two: Command)
    ensures ObeyAll(t, []) == t && ObeyAll(t, [one]) == Obey(t, one) && ObeyAll(t, [two]) == Obey(t, two)
    ensures ObeyAll(t, [one, two]) == Obey(Obey(t, one), two)
  {
    hide Obey;
    assert [one, two][..1] == [one] && [one][..0] == [] == [two][..0];
  }

  // ----- Whole runs -----

  /** The clock after each step. */
  function Clock(steps: seq<real>): real {
    if steps == [] then 0.0 else Clock(steps[..|steps| - 1]) + steps[|steps| - 1]
  }

  predicate Forward(steps: seq<real>) {
    forall i :: 0 <= i < |steps| ==> steps[i] > 0.0
  }

  function TargetsAfter(spec: Spec, steps: seq<real>): Targets {
    if steps == [] then spec.initial.targets
    else
      var before := steps[..|steps| - 1];
      Commanded(TargetsAfter(spec, before), spec.plan, Clock(before), Clock(steps))
  }

  lemma {:induction false} ClockIsMonotone(steps: seq<real>, n: nat)
    requires Forward(steps) && n <= |steps|
    ensures 0.0 <= Clock(steps[..n]) <= Clock(steps)
    ensures n < |steps| ==> Clock(steps[..n]) < Clock(steps)
  {
    if n < |steps| {
      var before := steps[..|steps| - 1];
      assert before[..n] == steps[..n];
      ClockIsMonotone(before, n);
    } else if steps != [] {
      ClockIsMonotone(steps[..|steps| - 1], |steps| - 1);
      assert steps[..|steps| - 1][..|steps| - 1] == steps[..|steps| - 1];
      assert steps[..n] == steps;
    }
  }

  /** However a run is cut into steps, a sorted plan leaves the targets that one long step would. */
  lemma {:induction false} TargetsDependOnlyOnTime(spec: Spec, steps: seq<real>)
    requires Sorted(spec.plan) && Forward(steps)
    ensures TargetsAfter(spec, steps) == Commanded(spec.initial.targets, spec.plan, 0.0, Clock(steps))
  {
    if steps == [] {
      NothingFires(spec.plan, 0.0);
    } else {
      var before := steps[..|steps| - 1];
      TargetsDependOnlyOnTime(spec, before);
      ClockIsMonotone(steps, |steps| - 1);
      CuttingAStep(spec.initial.targets, spec.plan, 0.0, Clock(before), Clock(steps));
    }
  }

  lemma {:induction false} NothingFires(plan: seq<Command>, t: real)
    ensures Firing(plan, t, t) == []
  {
    if plan != [] { NothingFires(plan[..|plan| - 1], t); }
  }

  /** How many of a run's steps fire a command. */
  function TimesFired(c: Command, steps: seq<real>): nat {
    if steps == [] then 0
    else TimesFired(c, steps[..|steps| - 1]) + if Fires(c, Clock(steps[..|steps| - 1]), Clock(steps)) then 1 else 0
  }

  /** A command fires in exactly one step if its time is positive and has been reached, and in none
      otherwise: one at time zero never fires. */
  lemma {:induction false} EachCommandFiresOnce(c: Command, steps: seq<real>)
    requires Forward(steps)
    ensures TimesFired(c, steps) == if 0.0 < c.at <= Clock(steps) then 1 else 0
  {
    if steps != [] {
      EachCommandFiresOnce(c, steps[..|steps| - 1]);
      ClockIsMonotone(steps, |steps| - 1);
    }
  }

  // ----- Chasing a target -----

  function CopySign(magnitude: real, sign: real): real {
    if sign < 0.0 then -magnitude else magnitude
  }

  /** A bounded move over a remaining difference. */
  function Bounded(difference: real, limit: real): real {
    CopySign(Min(Abs(difference), limit), difference)
  }

  function Chase(x: real, target: real, limit: real): real {
    x + Bounded(target - x, limit)
  }

  /** A chase never passes its target, and closes the gap by the limit or entirely. */
  lemma ChaseClosesIn(x: real, target: real, limit: real)
    requires limit >= 0.0
    ensures var y := Chase(x, target, limit);
      && Abs(target - y) == Max(0.0, Abs(target - x) - limit)
      && Min(x, target) <= y <= Max(x, target)
  {
  }

  /** Two chases are one over both intervals. */
  lemma ChasesCompose(x: real, target: real, a: real, b: real)
    requires a >= 0.0 && b >= 0.0
    ensures Chase(Chase(x, target, a), target, b) == Chase(x, target, a + b)
  {
  }

  /** The distance covered in `n` steps. */
  function Covered(limit: real, n: nat): real {
    n as real * limit
  }

  lemma NoneCovered(limit: real)
    ensures Covered(limit, 0) == 0.0
  {
  }

  lemma CoveredNext(limit: real, n: nat)
    requires n > 0
    ensures Covered(limit, n) == Covered(limit, n - 1) + limit
  {
  }

  function Repeated(x: real, target: real, limit: real, n: nat): real {
    if n == 0 then x else Chase(Repeated(x, target, limit, n - 1), target, limit)
  }

  /** The target is reached in exactly the number of steps the gap takes, and then held. */
  lemma {:induction false} ReachedWhenTheGapIsCovered(x: real, target: real, limit: real, n: nat)
    requires limit > 0.0
    ensures Repeated(x, target, limit, n) == target <==> Abs(target - x) <= Covered(limit, n)
    ensures Abs(target - Repeated(x, target, limit, n)) == Max(0.0, Abs(target - x) - Covered(limit, n))
  {
    hide Covered, Chase;
    NoneCovered(limit);
    if n > 0 {
      ReachedWhenTheGapIsCovered(x, target, limit, n - 1);
      ChaseClosesIn(Repeated(x, target, limit, n - 1), target, limit);
      CoveredNext(limit, n);
    }
  }

  // ----- Bearings -----

  /** The floored remainder of a division by a full turn. */
  function Wrap(x: real): real {
    x - 360.0 * (x / 360.0).Floor as real
  }

  function NormalizeBearing(x: real): (r: real)
    ensures 0.0 <= r < 360.0
  {
    WrapRange(x);
    if Wrap(x) >= 360.0 then 0.0 else Wrap(x)
  }

  function BearingDifference(from: real, to: real): (d: real)
    ensures -180.0 < d <= 180.0
  {
    WrapRange(to - from + 180.0);
    var delta := Wrap(to - from + 180.0) - 180.0;
    if delta <= -180.0 then delta + 360.0 else delta
  }

  lemma WrapRange(x: real)
    ensures 0.0 <= Wrap(x) < 360.0
  {
    var q := x / 360.0;
    assert q * 360.0 == x;
    assert q.Floor as real <= q < q.Floor as real + 1.0;
  }

  function Turns(k: int): real {
    360.0 * k as real
  }

  lemma WholeTurns(k: int)
    ensures k >= 1 ==> Turns(k) >= 360.0
    ensures k <= -1 ==> Turns(k) <= -360.0
  {
  }

  /** Two angles a whole number of turns apart. */
  ghost predicate SameDirection(x: real, y: real) {
    exists k: int :: x == y + Turns(k)
  }

  /** Of all the angles a whole number of turns from `x`, only one lies in [0, 360). */
  lemma WrapIsUnique(x: real, y: real, k: int)
    requires x == y + Turns(k) && 0.0 <= y < 360.0
    ensures NormalizeBearing(x) == y
  {
    WrapRange(x);
    var n := (x / 360.0).Floor;
    assert Wrap(x) == y + Turns(k - n);
    WholeTurns(k - n);
  }

  /** The difference of two bearings is the one short turn, to the right when both ways are equal, that
      leads from the first to the second. */
  lemma DifferenceLeads(from: real, to: real)
    ensures SameDirection(from + BearingDifference(from, to), to)
  {
    var n := ((to - from + 180.0) / 360.0).Floor;
    var d := BearingDifference(from, to);
    var k := if Wrap(to - from + 180.0) - 180.0 <= -180.0 then 1 - n else -n;
    assert from + d == to + Turns(k);
  }

  lemma DifferenceIsUnique(from: real, to: real, d: real, k: int)
    requires -180.0 < d <= 180.0 && from + d == to + Turns(k)
    ensures BearingDifference(from, to) == d
  {
    DifferenceLeads(from, to);
    var e := BearingDifference(from, to);
    var m: int :| from + e == to + Turns(m);
    assert e - d == Turns(m - k);
    WholeTurns(m - k);
  }

  // ----- The heading chase -----

  function Turned(track: real, target: real, limit: real): real {
    NormalizeBearing(track + Bounded(BearingDifference(track, target), limit))
  }

  lemma NormalizeKeepsDirection(x: real)
    ensures SameDirection(NormalizeBearing(x), x)
  {
    WrapRange(x);
    var k := -(x / 360.0).Floor;
    assert Wrap(x) == x + Turns(k);
  }

  /** Turning shrinks what is left to turn by the limit, on the same side, and never past it. */
  lemma TurnClosesIn(track: real, target: real, limit: real)
    requires limit >= 0.0
    ensures var d := BearingDifference(track, target);
      && BearingDifference(Turned(track, target, limit), target) == d - Bounded(d, limit)
      && Abs(BearingDifference(Turned(track, target, limit), target)) == Max(0.0, Abs(d) - limit)
  {
    var d := BearingDifference(track, target);
    var turn := Bounded(d, limit);
    NormalizeKeepsDirection(track + turn);
    DifferenceLeads(track, target);
    var k: int :| NormalizeBearing(track + turn) == track + turn + Turns(k);
    var m: int :| track + d == target + Turns(m);
    assert Turns(k + m) == Turns(k) + Turns(m);
    DifferenceIsUnique(Turned(track, target, limit), target, d - turn, k + m);
  }

  lemma BoundsCompose(d: real, a: real, b: real)
    requires a >= 0.0 && b >= 0.0
    ensures Bounded(d, a) + Bounded(d - Bounded(d, a), b) == Bounded(d, a + b)
  {
  }

  /** Two turns are one over both intervals. */
  lemma TurnsCompose(track: real, target: real, a: real, b: real)
    requires a >= 0.0 && b >= 0.0
    ensures Turned(Turned(track, target, a), target, b) == Turned(track, target, a + b)
  {
    hide BearingDifference, Bounded, NormalizeBearing;
    var d := BearingDifference(track, target);
    var (t1, t2) := (Bounded(d, a), Bounded(d - Bounded(d, a), b));
    TurnClosesIn(track, target, a);
    BoundsCompose(d, a, b);
    NormalizeKeepsDirection(track + t1);
    var k: int :| NormalizeBearing(track + t1) == track + t1 + Turns(k);
    NormalizeKeepsDirection(track + t1 + t2);
    var m: int :| NormalizeBearing(track + t1 + t2) == track + t1 + t2 + Turns(m);
    assert Turned(track, target, a) + t2 == NormalizeBearing(track + t1 + t2) + Turns(k - m);
    WrapIsUnique(Turned(track, target, a) + t2, NormalizeBearing(track + t1 + t2), k - m);
  }

  function TurnedRepeatedly(track: real, target: real, limit: real, n: nat): real {
    if n == 0 then track else Turned(TurnedRepeatedly(track, target, limit, n - 1), target, limit)
  }

  /** What is left to turn after `n` steps; it is nothing once they cover the first difference, which is
      at most half a turn. */
  lemma {:induction false} TurnIsCompleted(track: real, target: real, limit: real, n: nat)
    requires limit > 0.0
    ensures var left := BearingDifference(TurnedRepeatedly(track, target, limit, n), target);
      && Abs(left) == Max(0.0, Abs(BearingDifference(track, target)) - Covered(limit, n))
      && (Covered(limit, n) >= 180.0 ==> left == 0.0)
  {
    hide Covered, Turned, Bounded, BearingDifference;
    NoneCovered(limit);
    if n > 0 {
      TurnIsCompleted(track, target, limit, n - 1);
      TurnClosesIn(TurnedRepeatedly(track, target, limit, n - 1), target, limit);
      CoveredNext(limit, n);
    }
  }

  /** Once the turns cover the first difference, the heading is the target's. */
  lemma HeadingIsReached(track: real, target: real, limit: real, n: nat)
    requires limit > 0.0 && n > 0 && Covered(limit, n) >= Abs(BearingDifference(track, target))
    ensures TurnedRepeatedly(track, target, limit, n) == NormalizeBearing(target)
  {
    hide Bounded, Wrap;
    var heading := TurnedRepeatedly(track, target, limit, n);
    TurnIsCompleted(track, target, limit, n);
    DifferenceLeads(heading, target);
    var k: int :| heading + 0.0 == target + Turns(k);
    WrapIsUnique(target, heading, -k);
  }

  // ----- The simulation object -----

  /** Moving over the ground: position after a step at the mean heading and speed. */
  type Projector = (real, real, real, real, real) -> (real, real)

  /** The most an axis can change in a step. */
  function Reach(rate: real, dt: real): real {
    rate * dt
  }

  function HeadingAfter(track: real, t: Targets, dt: real): real {
    Turned(track, t.trackDeg, Reach(t.turnRateDegS, dt))
  }

  function SpeedAfter(speed: real, t: Targets, dt: real): real {
    Chase(speed, t.speedKt, Reach(t.accelerationKtS, dt))
  }

  function ClimbOver(altitude: real, t: Targets, dt: real): real {
    Bounded(t.altitudeFt - altitude, Reach(t.climbRateFpm / 60.0, dt))
  }

  function AltitudeAfter(altitude: real, t: Targets, dt: real): real {
    Max(0.0, altitude + ClimbOver(altitude, t, dt))
  }

  /** One aircraft, one step.  One not yet airborne stays where it is. */
  function Advanced(project: Projector, s: Truth, dt: real, airborne: bool): Truth
    requires dt > 0.0
  {
    if !airborne then s.(airborne := false)
    else
      var turn := Bounded(BearingDifference(s.trackDeg, s.targets.trackDeg), Reach(s.targets.turnRateDegS, dt));
      var speed := SpeedAfter(s.speedKt, s.targets, dt);
      var (lat, lon) := project(s.lat, s.lon, NormalizeBearing(s.trackDeg + turn / 2.0), (s.speedKt + speed) / 2.0, dt);
      Truth(lat, lon, AltitudeAfter(s.altitudeFt, s.targets, dt), speed, HeadingAfter(s.trackDeg, s.targets, dt),
            ClimbOver(s.altitudeFt, s.targets, dt) / dt * 60.0, true, s.targets)
  }

  function Stepped(project: Projector, spec: Spec, s: Truth, from: real, dt: real): Truth
    requires dt > 0.0
  {
    var commanded := s.(targets := Commanded(s.targets, spec.plan, from, from + dt));
    Advanced(project, commanded, dt, from + dt >= spec.entryTimeS)
  }

  /** An aircraft after a run of steps from time zero. */
  function Journey(project: Projector, spec: Spec, steps: seq<real>): Truth
    requires Forward(steps)
  {
    if steps == [] then spec.initial
    else
      var before := steps[..|steps| - 1];
      Stepped(project, spec, Journey(project, spec, before), Clock(before), steps[|steps| - 1])
  }

  lemma JourneyExtends(project: Projector, spec: Spec, steps: seq<real>, dt: real)
    requires Forward(steps) && dt > 0.0
    ensures Forward(steps + [dt]) && Clock(steps + [dt]) == Clock(steps) + dt
    ensures Journey(project, spec, steps + [dt])
         == Stepped(project, spec, Journey(project, spec, steps), Clock(steps), dt)
  {
    hide Stepped;
    assert (steps + [dt])[..|steps|] == steps;
  }

  class Simulation {
    const specs: map<Id, Spec>
    const project: Projector
    var elapsedS: real
    var state: map<Id, Truth>
    /** The steps taken so far. */
    ghost var steps: seq<real>

    /** Every aircraft is where the steps taken bring it. */
    ghost predicate Valid()
      reads this
    {
      && Forward(steps) && elapsedS == Clock(steps) && state.Keys == specs.Keys
      && forall a :: a in specs ==> state[a] == Journey(project, specs[a], steps)
    }

    constructor (specs: map<Id, Spec>, project: Projector)
      ensures Valid() && this.specs == specs && this.project == project && elapsedS == 0.0 && steps == []
      ensures state == map a | a in specs :: specs[a].initial
    {
      this.specs, this.project, elapsedS, steps := specs, project, 0.0, [];
      state := map a | a in specs :: specs[a].initial;
    }

    /** Move every aircraft forward; a step that is not positive is refused and changes nothing. */
    method Advance(dt: real) returns (ok: bool)
      requires Valid()
      modifies this
      ensures Valid() && ok == (dt > 0.0)
      ensures steps == if ok then old(steps) + [dt] else old(steps)
      ensures !ok ==> state == old(state) && elapsedS == old(elapsedS)
      ensures ok ==> elapsedS == old(elapsedS) + dt
      ensures ok ==> forall a :: a in specs ==> state[a] == Stepped(project, specs[a], old(state)[a], old(elapsedS), dt)
    {
      hide Stepped, Journey, Clock;
      ok := dt > 0.0;
      if !ok { return; }
      ghost var taken := steps;
      var previous := elapsedS;
      elapsedS := elapsedS + dt;
      var todo := state.Keys;
      while todo != {}
        invariant todo <= specs.Keys && state.Keys == specs.Keys && elapsedS == previous + dt && steps == taken
        invariant forall a :: a in specs ==>
          state[a] == if a in todo then old(state)[a] else Stepped(project, specs[a], old(state)[a], previous, dt)
        decreases |todo|
      {
        var a :| a in todo;
        todo := todo - {a};
        var s := AdvanceOne(a, state[a], previous, dt);
        state := state[a := s];
      }
      steps := steps + [dt];
      ClockExtends(taken, dt);
      forall a | a in specs ensures state[a] == Journey(project, specs[a], steps) {
        JourneyExtends(project, specs[a], taken, dt);
      }
    }

    method AdvanceOne(a: Id, s: Truth, previous: real, dt: real) returns (r: Truth)
      requires a in specs && dt > 0.0
      ensures r == Stepped(project, specs[a], s, previous, dt)
    {
      var targets := ApplyCommands(s.targets, specs[a].plan, previous, previous + dt);
      r := Advanced(project, s.(targets := targets), dt, previous + dt >= specs[a].entryTimeS);
    }
  }

  lemma ClockExtends(steps: seq<real>, dt: real)
    ensures Clock(steps + [dt]) == Clock(steps) + dt
    ensures Forward(steps) && dt > 0.0 ==> Forward(steps + [dt])
  {
    assert (steps + [dt])[..|steps|] == steps;
  }

  // ----- An airborne aircraft between commands -----

  /** Its targets and rates are ones a scenario allows. */
  predicate Flyable(t: Targets) {
    && t.turnRateDegS >= 0.0 && t.accelerationKtS >= 0.0 && t.climbRateFpm >= 0.0 && t.altitudeFt >= 0.0
  }

  /** The floor at zero never acts on a climb from a non-negative altitude to a non-negative target. */
  lemma AltitudeIsChased(x: real, target: real, limit: real)
    requires x >= 0.0 && target >= 0.0 && limit >= 0.0
    ensures Max(0.0, x + Bounded(target - x, limit)) == Chase(x, target, limit) >= 0.0
  {
    ChaseClosesIn(x, target, limit);
  }

  /** The reported vertical rate is the one achieved over the step, and it is zero exactly when the
      aircraft is already at its target or has been given no rate. */
  lemma VerticalRateIsAchieved(project: Projector, s: Truth, dt: real)
    requires Flyable(s.targets) && s.altitudeFt >= 0.0 && dt > 0.0
    ensures var after := Advanced(project, s, dt, true);
      && after.verticalRateFpm / 60.0 * dt == after.altitudeFt - s.altitudeFt
      && (after.verticalRateFpm == 0.0 <==> s.altitudeFt == s.targets.altitudeFt || s.targets.climbRateFpm == 0.0)
  {
    hide HeadingAfter, SpeedAfter, BearingDifference, NormalizeBearing;
    var limit := Reach(s.targets.climbRateFpm / 60.0, dt);
    ProductIsNonNegative(s.targets.climbRateFpm / 60.0, dt);
    if s.targets.climbRateFpm > 0.0 { ProductIsPositive(s.targets.climbRateFpm / 60.0, dt); }
    AltitudeIsChased(s.altitudeFt, s.targets.altitudeFt, limit);
    var climb := ClimbOver(s.altitudeFt, s.targets, dt);
    RateOfClimb(climb, dt, climb / dt * 60.0);
  }

  lemma RateOfClimb(climb: real, dt: real, rate: real)
    requires dt > 0.0 && rate == climb / dt * 60.0
    ensures rate / 60.0 * dt == climb && (rate == 0.0 <==> climb == 0.0)
  {
    assert climb / dt * dt == climb;
    assert rate / 60.0 == climb / dt;
  }

  lemma RateOverBoth(rate: real, a: real, b: real)
    requires rate >= 0.0 && a > 0.0 && b > 0.0
    ensures Reach(rate, a) >= 0.0 && Reach(rate, b) >= 0.0 && Reach(rate, a + b) == Reach(rate, a) + Reach(rate, b)
  {
    ProductIsNonNegative(rate, a);
    ProductIsNonNegative(rate, b);
  }

  lemma HeadingOverBoth(track: real, t: Targets, a: real, b: real)
    requires Flyable(t) && a > 0.0 && b > 0.0
    ensures HeadingAfter(HeadingAfter(track, t, a), t, b) == HeadingAfter(track, t, a + b)
  {
    hide Turned, Reach;
    RateOverBoth(t.turnRateDegS, a, b);
    TurnsCompose(track, t.trackDeg, Reach(t.turnRateDegS, a), Reach(t.turnRateDegS, b));
  }

  lemma SpeedOverBoth(speed: real, t: Targets, a: real, b: real)
    requires Flyable(t) && a > 0.0 && b > 0.0
    ensures SpeedAfter(SpeedAfter(speed, t, a), t, b) == SpeedAfter(speed, t, a + b)
  {
    hide Chase, Reach;
    RateOverBoth(t.accelerationKtS, a, b);
    ChasesCompose(speed, t.speedKt, Reach(t.accelerationKtS, a), Reach(t.accelerationKtS, b));
  }

  lemma AltitudeOverBoth(altitude: real, t: Targets, a: real, b: real)
    requires Flyable(t) && altitude >= 0.0 && a > 0.0 && b > 0.0
    ensures AltitudeAfter(AltitudeAfter(altitude, t, a), t, b) == AltitudeAfter(altitude, t, a + b)
  {
    hide Bounded, Chase, Reach;
    var rate := t.climbRateFpm / 60.0;
    RateOverBoth(rate, a, b);
    var (ca, cb) := (Reach(rate, a), Reach(rate, b));
    AltitudeIsChased(altitude, t.altitudeFt, ca);
    AltitudeIsChased(Chase(altitude, t.altitudeFt, ca), t.altitudeFt, cb);
    AltitudeIsChased(altitude, t.altitudeFt, ca + cb);
    ChasesCompose(altitude, t.altitudeFt, ca, cb);
  }

  /** Flying for two intervals in turn brings speed, altitude and heading where flying for both at once
      does. */
  lemma AxesDependOnlyOnTime(project: Projector, s: Truth, a: real, b: real)
    requires Flyable(s.targets) && s.altitudeFt >= 0.0 && a > 0.0 && b > 0.0
    ensures var (two, one) := (Advanced(project, Advanced(project, s, a, true), b, true),
                               Advanced(project, s, a + b, true));
      && two.speedKt == one.speedKt && two.altitudeFt == one.altitudeFt && two.trackDeg == one.trackDeg
      && two.targets == one.targets == s.targets
  {
    hide HeadingAfter, SpeedAfter, AltitudeAfter, Bounded, BearingDifference, NormalizeBearing, ClimbOver, Flyable;
    HeadingOverBoth(s.trackDeg, s.targets, a, b);
    SpeedOverBoth(s.speedKt, s.targets, a, b);
    AltitudeOverBoth(s.altitudeFt, s.targets, a, b);
  }
}
