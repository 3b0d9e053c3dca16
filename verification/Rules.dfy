/** The single-aircraft rules (rules.py): what each one finds on a track, and exactly when. */
module Rules {
  import opened Prelude
  import opened Kalman
  import opened Estimator
  import opened Alerts

  /** What one rule found on one track. */
  datatype RuleFinding = RuleFinding(kind: AlertKind, severity: Severity, reasonCodes: seq<string>)

  const EXCESSIVE_DESCENT_FPM := -6000.0
  const LOW_ALTITUDE_FT := 10000.0
  const LOW_ALTITUDE_DESCENT_FPM := -3000.0

  /** The altitude and the vertical rate a track is announced with. */
  function AltitudeFt(u: TrackUpdate): real { Max(0.0, u.estimate.mean[ALT]) }

  function VerticalRateFpm(u: TrackUpdate): real { u.estimate.mean[VRATE] }

  /** What a code reserved for emergencies says, if it is one. */
  function EmergencyCode(squawk: string): Option<string> {
    if squawk == "7500" then Some("squawk_7500_hijack")
    else if squawk == "7600" then Some("squawk_7600_radio_failure")
    else if squawk == "7700" then Some("squawk_7700_emergency")
    else None
  }

  function SquawkFinding(u: TrackUpdate): Option<RuleFinding> {
    if u.squawk.None? then None
    else
      var code := EmergencyCode(u.squawk.value);
      if code.None? then None else Some(RuleFinding(EmergencySquawk, Warning, [code.value]))
  }

  function DescentFinding(u: TrackUpdate): Option<RuleFinding> {
    var rate := VerticalRateFpm(u);
    if rate >= 0.0 then None
    else
      var lowAndSteep := AltitudeFt(u) < LOW_ALTITUDE_FT && rate <= LOW_ALTITUDE_DESCENT_FPM;
      var verySteep := rate <= EXCESSIVE_DESCENT_FPM;
      if !lowAndSteep && !verySteep then None
      else Some(RuleFinding(
        ExcessiveDescent, if lowAndSteep then Warning else Caution,
        (if verySteep then ["descent_rate_above_6000_fpm"] else [])
        + if lowAndSteep then ["steep_descent_below_10000_ft"] else []))
  }

  /** Every rule, applied to one track. */
  function Check(u: TrackUpdate): seq<RuleFinding> {
    AsSeq(SquawkFinding(u)) + AsSeq(DescentFinding(u))
  }

  // ----- Exactly when, and how urgent -----

  /** A pilot squawks one of the three reserved codes. */
  predicate Squawks(u: TrackUpdate) {
    u.squawk == Some("7500") || u.squawk == Some("7600") || u.squawk == Some("7700")
  }

  /** The aircraft sinks by 6000 ft a minute or more, or by 3000 or more below 10000 ft. */
  predicate Plunges(u: TrackUpdate) {
    u.estimate.mean[VRATE] <= -6000.0 || (u.estimate.mean[VRATE] <= -3000.0 && u.estimate.mean[ALT] < 10000.0)
  }

  /** Whether a rule of this kind fires on the track. */
  predicate Fires(kind: AlertKind, u: TrackUpdate) {
    (kind == EmergencySquawk && Squawks(u)) || (kind == ExcessiveDescent && Plunges(u))
  }

  /** The rules find each kind once at most, exactly when its condition holds; an emergency is always a warning, a
      descent one exactly when it is steep and low, and the codes say which of the two limits it is beyond. */
  lemma CheckFindsExactly(u: TrackUpdate, kind: AlertKind)
    ensures (exists r :: r in Check(u) && r.kind == kind) <==> Fires(kind, u)
    ensures forall r, q :: r in Check(u) && q in Check(u) && r.kind == q.kind ==> r == q
    ensures forall r :: r in Check(u) && r.kind == EmergencySquawk ==>
      && r.severity == Warning
      && r.reasonCodes == [if u.squawk == Some("7500") then "squawk_7500_hijack"
                           else if u.squawk == Some("7600") then "squawk_7600_radio_failure"
                           else "squawk_7700_emergency"]
    ensures forall r :: r in Check(u) && r.kind == ExcessiveDescent ==>
      && (r.severity == Warning <==> u.estimate.mean[VRATE] <= -3000.0 && u.estimate.mean[ALT] < 10000.0)
      && (r.severity != Warning ==> r.severity == Caution)
      && ("descent_rate_above_6000_fpm" in r.reasonCodes <==> u.estimate.mean[VRATE] <= -6000.0)
      && ("steep_descent_below_10000_ft" in r.reasonCodes <==> r.severity == Warning)
  {
    var (squawk, descent) := (SquawkFinding(u), DescentFinding(u));
    SquawkFinds(u);
    DescentFinds(u);
    hide SquawkFinding, DescentFinding, Squawks, Plunges;
    if squawk.Some? { assert Check(u)[0] == squawk.value; }
    if descent.Some? { assert Check(u)[|Check(u)| - 1] == descent.value; }
  }

  lemma SquawkFinds(u: TrackUpdate)
    ensures SquawkFinding(u).Some? <==> Squawks(u)
    ensures SquawkFinding(u).Some? ==>
      var r := SquawkFinding(u).value;
      && r.kind == EmergencySquawk && r.severity == Warning
      && r.reasonCodes == [if u.squawk == Some("7500") then "squawk_7500_hijack"
                           else if u.squawk == Some("7600") then "squawk_7600_radio_failure"
                           else "squawk_7700_emergency"]
  {
  }

  lemma DescentFinds(u: TrackUpdate)
    ensures DescentFinding(u).Some? <==> Plunges(u)
    ensures DescentFinding(u).Some? ==>
      var r := DescentFinding(u).value;
      && r.kind == ExcessiveDescent
      && (r.severity == Warning <==> u.estimate.mean[VRATE] <= -3000.0 && u.estimate.mean[ALT] < 10000.0)
      && (r.severity != Warning ==> r.severity == Caution)
      && ("descent_rate_above_6000_fpm" in r.reasonCodes <==> u.estimate.mean[VRATE] <= -6000.0)
      && ("steep_descent_below_10000_ft" in r.reasonCodes <==> r.severity == Warning)
  {
    assert "descent_rate_above_6000_fpm"[0] != "steep_descent_below_10000_ft"[0];
  }

  /** Sinking faster, or as fast and lower, never loses a finding. */
  lemma SteeperOrLowerIsStillFound(u: TrackUpdate, v: TrackUpdate)
    requires Plunges(u) && v.estimate.mean[VRATE] <= u.estimate.mean[VRATE]
      && v.estimate.mean[ALT] <= u.estimate.mean[ALT]
    ensures exists r :: r in Check(v) && r.kind == ExcessiveDescent
  {
    hide Check;
    CheckFindsExactly(v, ExcessiveDescent);
  }
}
