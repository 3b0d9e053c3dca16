/** What an active alert says of the aircraft it names (conformance/runner.py with alerts.py), over any run of scans
    and losses of tracks: a conflict, a rule's condition, or a deviation from a prediction. */
module AlertMeaning {
  import opened Prelude
  import opened Separation
  import opened Alerts
  import History = AlertHistory
  import opened Estimator
  import opened Conformance
  import Monitor
  import Rules
  import opened Advisories

  /** One call of the service, for the alerts: a scan of a picture with the findings then pending, or the loss
      of some tracks. */
  datatype Moment =
    | Scanning(now: real, wall: real, picture: Picture, findings: map<Id, Monitor.NonConformance>, id: nat)
    | Losing(now: real, wall: real, gone: set<Id>)

  /** The same as seen by one alert key. */
  function EventOf(f: Front, k: Id, x: Moment): History.Event {
    match x
    case Scanning(now, wall, picture, findings, id) =>
      History.Scan(now, wall, Seen(DetectorsOf(f), picture, findings, k), id)
    case Losing(now, wall, gone) => History.Lost(now, wall, gone)
  }

  function EventsOf(f: Front, k: Id, moments: seq<Moment>): (events: seq<History.Event>)
    ensures |events| == |moments| && forall i :: 0 <= i < |events| ==> events[i] == EventOf(f, k, moments[i])
  {
    seq(|moments|, i requires 0 <= i < |moments| => EventOf(f, k, moments[i]))
  }

  function ScansIn(moments: seq<Moment>): nat {
    if moments == [] then 0
    else ScansIn(moments[..|moments| - 1]) + if moments[|moments| - 1].Scanning? then 1 else 0
  }

  // ----- Any condition -----

  /** Whether a scan sees the condition. */
  type Condition = Moment -> bool

  predicate NamesExactly(d: Detection, names: set<Id>) {
    (forall i :: 0 <= i < |d.trackIds| ==> d.trackIds[i] in names)
    && forall a :: a in names ==> exists i :: 0 <= i < |d.trackIds| && d.trackIds[i] == a
  }

  /** What the key's event detects is this condition, and names these tracks. */
  predicate Shows(e: History.Event, x: Moment, sees: Condition, names: set<Id>) {
    && (History.Detects(e) <==> x.Scanning? && sees(x))
    && (History.Detects(e) ==> NamesExactly(e.seen.value, names))
  }

  predicate Watches(f: Front, k: Id, moments: seq<Moment>, sees: Condition, names: set<Id>) {
    forall i :: 0 <= i < |moments| ==> Shows(EventOf(f, k, moments[i]), moments[i], sees, names)
  }

  /** The scan at `j` saw the condition, few enough scans have followed it, and none of the tracks has been lost
      since. */
  predicate Warrants(policy: Policy, moments: seq<Moment>, sees: Condition, names: set<Id>, j: nat) {
    && j < |moments| && moments[j].Scanning? && sees(moments[j])
    && ScansIn(moments[j + 1..]) < History.Patience(policy)
    && forall i :: j < i < |moments| && moments[i].Losing? ==> moments[i].gone !! names
  }

  /** The latest detection of a history in which all detections name these tracks does too. */
  lemma {:induction false} LatestNames(events: seq<History.Event>, names: set<Id>)
    requires forall i :: 0 <= i < |events| && History.Detects(events[i]) ==> NamesExactly(events[i].seen.value, names)
    ensures var d := History.LatestDetection(events);
      && (d.Some? <==> exists i :: 0 <= i < |events| && History.Detects(events[i]))
      && (d.Some? ==> NamesExactly(d.value, names))
  {
    hide NamesExactly;
    if events != [] {
      var before := events[..|events| - 1];
      LatestNames(before, names);
      if i :| 0 <= i < |before| && History.Detects(before[i]) { assert History.Detects(events[i]); }
    }
  }

  lemma {:induction false} ScansAgree(f: Front, k: Id, moments: seq<Moment>, j: nat)
    requires j < |moments|
    ensures History.ScansAfter(EventsOf(f, k, moments), j) == ScansIn(moments[j + 1..])
  {
    hide EventOf;
    if j + 1 < |moments| {
      var (n, events) := (|moments| - 1, EventsOf(f, k, moments));
      ScansAgree(f, k, moments[..n], j);
      assert events[..n] == EventsOf(f, k, moments[..n]);
      assert moments[j + 1..][..n - j - 1] == moments[..n][j + 1..];
      ScanIsScan(f, k, moments[n]);
    }
  }

  lemma ScanIsScan(f: Front, k: Id, x: Moment)
    ensures EventOf(f, k, x).Scan? <==> x.Scanning?
    ensures x.Losing? ==> EventOf(f, k, x).gone == x.gone
  {
  }

  lemma NamedIfAny(d: Detection, names: set<Id>, gone: set<Id>)
    requires NamesExactly(d, names)
    ensures Names(d, gone) <==> !(gone !! names)
  {
    if !(gone !! names) {
      var a :| a in gone && a in names;
      var i :| 0 <= i < |d.trackIds| && d.trackIds[i] == a;
    }
  }

  lemma LossHits(f: Front, k: Id, moments: seq<Moment>, sees: Condition, names: set<Id>, j: nat, i: nat)
    requires Watches(f, k, moments, sees, names)
    requires j < i < |moments| && History.Detects(EventsOf(f, k, moments)[j])
    ensures History.Hits(EventsOf(f, k, moments), i) <==> moments[i].Losing? && !(moments[i].gone !! names)
  {
    hide EventOf, NamesExactly, Names;
    var events := EventsOf(f, k, moments);
    forall n | 0 <= n < i && History.Detects(events[..i][n]) ensures NamesExactly(events[..i][n].seen.value, names) {
      assert Shows(EventOf(f, k, moments[n]), moments[n], sees, names);
    }
    assert History.Detects(events[..i][j]);
    LatestNames(events[..i], names);
    ScanIsScan(f, k, moments[i]);
    NamedIfAny(History.LatestDetection(events[..i]).value, names, if moments[i].Losing? then moments[i].gone else {});
  }

  /** A detection goes on supporting the key's alert exactly while it warrants it. */
  lemma SupportIsWarrant(f: Front, policy: Policy, k: Id, moments: seq<Moment>, sees: Condition, names: set<Id>, j: nat)
    requires Watches(f, k, moments, sees, names)
    ensures History.Supports(policy, EventsOf(f, k, moments), j) <==> Warrants(policy, moments, sees, names, j)
  {
    hide EventOf, History.Detects, History.Hits, History.ScansAfter, ScansIn, NamesExactly;
    var events := EventsOf(f, k, moments);
    if j < |moments| {
      ScansAgree(f, k, moments, j);
      assert Shows(EventOf(f, k, moments[j]), moments[j], sees, names);
      if History.Detects(events[j]) {
        forall i | j < i < |moments|
          ensures History.Hits(events, i) <==> moments[i].Losing? && !(moments[i].gone !! names)
        {
          LossHits(f, k, moments, sees, names, j, i);
        }
      }
    }
  }

  /** An alert is active exactly when one of the last scans the policy looks back over saw its condition, and none of
      the tracks it names has been lost since; and it names these tracks. */
  lemma ActiveExactlyWhenSeen(f: Front, policy: Policy, k: Id, moments: seq<Moment>, sees: Condition, names: set<Id>)
    requires Watches(f, k, moments, sees, names)
    ensures var slot := History.KeyRun(policy, EventsOf(f, k, moments)).slot;
      && (slot.Some? <==> exists j: nat :: Warrants(policy, moments, sees, names, j))
      && (slot.Some? ==> NamesExactly(slot.value.detection, names))
  {
    hide EventOf, Warrants, History.KeyRun, History.Supports, NamesExactly;
    var events := EventsOf(f, k, moments);
    History.ActiveExactlyWhenRecentlyDetected(policy, events);
    forall j: nat ensures History.Supports(policy, events, j) <==> Warrants(policy, moments, sees, names, j) {
      SupportIsWarrant(f, policy, k, moments, sees, names, j);
    }
    forall n | 0 <= n < |events| && History.Detects(events[n]) ensures NamesExactly(events[n].seen.value, names) {
      assert Shows(EventOf(f, k, moments[n]), moments[n], sees, names);
    }
    LatestNames(events, names);
  }

  // ----- Conflicts -----

  /** Every picture scanned can be judged, and pending findings are held under their own keys. */
  ghost predicate Regular(f: Front, moments: seq<Moment>, a: Id, b: Id)
    requires IsSqrt(f.maths.sqrt)
  {
    forall i :: 0 <= i < |moments| && moments[i].Scanning? ==>
      Judgeable(f, moments[i].picture, a, b) && Keyed(DetectorsOf(f), moments[i].findings)
  }

  /** The scan sees that the two will breach both standards at one moment of the lookahead. */
  ghost function BreachAhead(f: Front, a: Id, b: Id): Condition {
    (x: Moment) => x.Scanning? && WillBreach(f, x.picture, a, b)
  }

  /** A pending finding never takes over another condition's key. */
  lemma SeenIsDetected(f: Front, picture: Picture, findings: map<Id, Monitor.NonConformance>, key: string)
    requires Works(f) && Keyed(DetectorsOf(f), findings)
    requires forall name :: TrackKey(AlertKind.NonConformance, name) != key
    ensures Seen(DetectorsOf(f), picture, findings, f.idOf(key)) == Lookup(Current(Detected(f, picture)), f.idOf(key))
  {
    hide Works, TrackKey;
    if f.idOf(key) in findings {
      SameText(f, TrackKey(AlertKind.NonConformance, f.textOf(findings[f.idOf(key)].trackId)), key);
      assert false;
    }
  }

  lemma ConflictIsShown(f: Front, x: Moment, a: Id, b: Id)
    requires Works(f) && a != b && Plain(f.textOf(a)) && Plain(f.textOf(b))
    requires x.Scanning? ==> Judgeable(f, x.picture, a, b) && Keyed(DetectorsOf(f), x.findings)
    ensures Shows(EventOf(f, KeyOfPair(f, a, b), x), x, BreachAhead(f, a, b), {a, b})
  {
    hide Works, Judgeable, WillBreach, Detected, Keyed, ConflictKey, TrackKey, Seen;
    if x.Scanning? {
      var key := ConflictKey(f.textOf(a), f.textOf(b));
      forall name ensures TrackKey(AlertKind.NonConformance, name) != key {
        OtherKeysDiffer(AlertKind.NonConformance, name, f.textOf(a), f.textOf(b));
      }
      SeenIsDetected(f, x.picture, x.findings, key);
      DetectedExactlyWhenBreaching(f, x.picture, a, b);
      var seen := Lookup(Current(Detected(f, x.picture)), KeyOfPair(f, a, b));
      if seen.Some? { PairIsExactly(seen.value, a, b); }
    }
  }

  lemma PairIsExactly(d: Detection, a: Id, b: Id)
    requires NamesPair(d, a, b)
    ensures NamesExactly(d, {a, b})
  {
    if d.trackIds == [a, b] { assert d.trackIds[0] == a && d.trackIds[1] == b; }
    if d.trackIds == [b, a] { assert d.trackIds[1] == a && d.trackIds[0] == b; }
  }

  /** Over any run of scans and losses, a conflict alert for two tracks is active exactly when one of the last
      scans the policy looks back over saw a moment of the lookahead at which the two would be inside both
      standards, and neither track has been lost since; and it names these two. */
  lemma ActiveExactlyWhenBreachSeen(f: Front, policy: Policy, moments: seq<Moment>, a: Id, b: Id)
    requires Works(f) && a != b && Plain(f.textOf(a)) && Plain(f.textOf(b)) && Regular(f, moments, a, b)
    ensures var slot := History.KeyRun(policy, EventsOf(f, KeyOfPair(f, a, b), moments)).slot;
      && (slot.Some? <==> exists j: nat :: Warrants(policy, moments, BreachAhead(f, a, b), {a, b}, j))
      && (slot.Some? ==> NamesExactly(slot.value.detection, {a, b}))
  {
    hide Works, Judgeable, WillBreach, Keyed, EventOf, NamesExactly, History.KeyRun, Warrants, Plain;
    forall i | 0 <= i < |moments|
      ensures Shows(EventOf(f, KeyOfPair(f, a, b), moments[i]), moments[i], BreachAhead(f, a, b), {a, b})
    {
      ConflictIsShown(f, moments[i], a, b);
    }
    ActiveExactlyWhenSeen(f, policy, KeyOfPair(f, a, b), moments, BreachAhead(f, a, b), {a, b});
  }

  // ----- Rules -----

  predicate FindingsKeyed(f: Front, moments: seq<Moment>) {
    forall i :: 0 <= i < |moments| && moments[i].Scanning? ==> Keyed(DetectorsOf(f), moments[i].findings)
  }

  /** The scan sees the track, and the rule's condition holds of it. */
  function RuleFires(kind: AlertKind, a: Id): Condition {
    (x: Moment) => x.Scanning? && a in x.picture && Rules.Fires(kind, x.picture[a])
  }

  lemma RuleIsShown(f: Front, x: Moment, kind: AlertKind, a: Id)
    requires Works(f) && (kind == EmergencySquawk || kind == ExcessiveDescent)
    requires x.Scanning? ==> Keyed(DetectorsOf(f), x.findings)
    ensures Shows(EventOf(f, KeyOfTrack(f, kind, a), x), x, RuleFires(kind, a), {a})
  {
    hide Works, Detected, Keyed, TrackKey, Rules.Fires, Seen;
    if x.Scanning? {
      var key := TrackKey(kind, f.textOf(a));
      forall name ensures TrackKey(AlertKind.NonConformance, name) != key {
        TrackKeyTellsKindAndTrack(AlertKind.NonConformance, name, kind, f.textOf(a));
      }
      SeenIsDetected(f, x.picture, x.findings, key);
      RuleDetectedExactlyWhenFiring(f, x.picture, kind, a);
      var seen := Lookup(Current(Detected(f, x.picture)), KeyOfTrack(f, kind, a));
      if seen.Some? { assert seen.value.trackIds[0] == a; }
    }
  }

  /** An alert for an emergency code or an excessive descent is active exactly when one of the last scans saw the
      condition hold of the track, and the track has not been lost since. */
  lemma ActiveExactlyWhenRuleFires(f: Front, policy: Policy, moments: seq<Moment>, kind: AlertKind, a: Id)
    requires Works(f) && (kind == EmergencySquawk || kind == ExcessiveDescent) && FindingsKeyed(f, moments)
    ensures var slot := History.KeyRun(policy, EventsOf(f, KeyOfTrack(f, kind, a), moments)).slot;
      && (slot.Some? <==> exists j: nat :: Warrants(policy, moments, RuleFires(kind, a), {a}, j))
      && (slot.Some? ==> NamesExactly(slot.value.detection, {a}))
  {
    hide Works, Keyed, EventOf, NamesExactly, History.KeyRun, Warrants, Rules.Fires;
    forall i | 0 <= i < |moments|
      ensures Shows(EventOf(f, KeyOfTrack(f, kind, a), moments[i]), moments[i], RuleFires(kind, a), {a})
    {
      RuleIsShown(f, moments[i], kind, a);
    }
    ActiveExactlyWhenSeen(f, policy, KeyOfTrack(f, kind, a), moments, RuleFires(kind, a), {a});
  }

  // ----- Deviations -----

  /** A finding about the track is pending at the scan. */
  function DeviationPending(a: Id): Condition {
    (x: Moment) => x.Scanning? && exists k :: k in x.findings && x.findings[k].trackId == a
  }

  lemma NothingElseDeviates(f: Front, picture: Picture, a: Id)
    requires Works(f)
    ensures KeyOfTrack(f, AlertKind.NonConformance, a) !in Current(Detected(f, picture))
  {
    hide Works, TrackKey;
    var k := KeyOfTrack(f, AlertKind.NonConformance, a);
    if k in Current(Detected(f, picture)) {
      var d := Current(Detected(f, picture))[k];
      DetectedIs(f, picture, d);
      if d.kind == PredictedConflict {
        var c :| c in f.search(Placed(f, picture)) && d == ConflictDetection(f, c);
        SameText(f, TrackKey(AlertKind.NonConformance, f.textOf(a)), ConflictKey(c.firstId, c.secondId));
        OtherKeysDiffer(AlertKind.NonConformance, f.textOf(a), c.firstId, c.secondId);
      } else {
        var b :| RuleOn(f, picture, b, d);
        SameText(f, TrackKey(AlertKind.NonConformance, f.textOf(a)), TrackKey(d.kind, f.textOf(b)));
        TrackKeyTellsKindAndTrack(AlertKind.NonConformance, f.textOf(a), d.kind, f.textOf(b));
      }
      assert false;
    }
  }

  lemma DeviationIsShown(f: Front, x: Moment, a: Id)
    requires Works(f) && (x.Scanning? ==> Keyed(DetectorsOf(f), x.findings))
    ensures Shows(EventOf(f, KeyOfTrack(f, AlertKind.NonConformance, a), x), x, DeviationPending(a), {a})
  {
    hide Works, Detected, TrackKey;
    var k := KeyOfTrack(f, AlertKind.NonConformance, a);
    if x.Scanning? {
      NothingElseDeviates(f, x.picture, a);
      if k in x.findings {
        KeyTellsTrack(f, x.findings[k].trackId, a);
        assert AsDetection(DetectorsOf(f), x.picture, x.findings[k]).trackIds[0] == a;
      }
    }
  }

  lemma KeyTellsTrack(f: Front, a: Id, b: Id)
    requires Works(f) && KeyOfTrack(f, AlertKind.NonConformance, a) == KeyOfTrack(f, AlertKind.NonConformance, b)
    ensures a == b
  {
    hide Works, TrackKey;
    SameText(f, TrackKey(AlertKind.NonConformance, f.textOf(a)), TrackKey(AlertKind.NonConformance, f.textOf(b)));
    TrackKeyTellsKindAndTrack(AlertKind.NonConformance, f.textOf(a), AlertKind.NonConformance, f.textOf(b));
    TextIsFaithful(f, a);
    TextIsFaithful(f, b);
  }

  /** A deviation alert is active exactly when one of the last scans took up a finding about the track, and the track
      has not been lost since. */
  lemma ActiveExactlyWhenDeviating(f: Front, policy: Policy, moments: seq<Moment>, a: Id)
    requires Works(f) && FindingsKeyed(f, moments)
    ensures var slot := History.KeyRun(policy, EventsOf(f, KeyOfTrack(f, AlertKind.NonConformance, a), moments)).slot;
      && (slot.Some? <==> exists j: nat :: Warrants(policy, moments, DeviationPending(a), {a}, j))
      && (slot.Some? ==> NamesExactly(slot.value.detection, {a}))
  {
    hide Works, Keyed, EventOf, NamesExactly, History.KeyRun, Warrants;
    var k := KeyOfTrack(f, AlertKind.NonConformance, a);
    forall i | 0 <= i < |moments| ensures Shows(EventOf(f, k, moments[i]), moments[i], DeviationPending(a), {a}) {
      DeviationIsShown(f, moments[i], a);
    }
    ActiveExactlyWhenSeen(f, policy, k, moments, DeviationPending(a), {a});
  }

  /** It is never more than an advisory, and its codes say whether the prediction was the model's and whether it
      missed by more than twice its threshold. */
  lemma DeviationSays(f: Front, picture: Picture, n: Monitor.NonConformance)
    ensures var d := AsDetection(DetectorsOf(f), picture, n);
      && d.kind == AlertKind.NonConformance && d.severity == Advisory && d.trackIds == [n.trackId]
      && "prediction_error_above_threshold" in d.reasonCodes
      && ("model_prediction" in d.reasonCodes <==> n.usedModel)
      && ("physics_prediction_only" in d.reasonCodes <==> !n.usedModel)
      && ("large_deviation" in d.reasonCodes <==> n.errorNm > 2.0 * n.thresholdNm)
      && d.scenarioId == if n.trackId in picture then picture[n.trackId].scenarioId else None
  {
    hide TrackKey;
    var codes := ReasonCodes(n);
    assert "model_prediction"[0] == 'm' && "physics_prediction_only"[1] == 'h' && "large_deviation"[0] == 'l'
      && "prediction_error_above_threshold"[1] == 'r';
    assert codes[0] == "prediction_error_above_threshold";
    assert codes[1] == if n.usedModel then "model_prediction" else "physics_prediction_only";
    if n.errorNm > n.thresholdNm * 2.0 { assert codes[2] == "large_deviation"; }
  }

  // ----- A scan of the service -----

  /** A scan of the service is two such moments for every key: the scan of what is left of the picture, and the
      loss of what is not. */
  lemma ScanIsTwoMoments(f: Front, policy: Policy, staleAfterS: real, now: real, wall: real, ids: Id -> nat,
                         h: Holdings, moments: seq<Moment>, k: Id)
    requires Lookup(h.active, k) == History.KeyRun(policy, EventsOf(f, k, moments)).slot
    ensures var scan := Scanning(now, wall, Remaining(h.picture, now, staleAfterS), h.findings, ids(k));
      var loss := Losing(now, wall, Expired(h.picture, now, staleAfterS) + h.terminated);
      ScanOfKey(DetectorsOf(f), policy, staleAfterS, now, ids, h, k).0
        == History.KeyRun(policy, EventsOf(f, k, moments + [scan, loss])).slot
  {
    hide ScanKey, ForgetKey, Seen, Lookup;
    var scan := Scanning(now, wall, Remaining(h.picture, now, staleAfterS), h.findings, ids(k));
    var loss := Losing(now, wall, Expired(h.picture, now, staleAfterS) + h.terminated);
    OneMoreMoment(f, policy, k, moments, scan);
    OneMoreMoment(f, policy, k, moments + [scan], loss);
    assert moments + [scan] + [loss] == moments + [scan, loss];
  }

  lemma OneMoreMoment(f: Front, policy: Policy, k: Id, moments: seq<Moment>, x: Moment)
    ensures History.KeyRun(policy, EventsOf(f, k, moments + [x])).slot
         == History.React(policy, History.KeyRun(policy, EventsOf(f, k, moments)).slot, EventOf(f, k, x)).slot
  {
    hide EventOf, History.React;
    var events := EventsOf(f, k, moments + [x]);
    assert events[..|moments|] == EventsOf(f, k, moments);
  }
}
