/** From the picture to the detections of one scan (conformance/runner.py): what is detected under which key, exactly
    when, and what it says. */
module Advisories {
  import opened Prelude
  import opened Separation
  import opened Scan
  import opened Alerts
  import opened Estimator
  import opened Conformance
  import Monitor
  import opened Rules

  /** The detectors and what the platform supplies them with: identifiers as text and back, the order in which
      a picture is listed, a track's place and motion in the picture's tangent plane, and the wording. */
  datatype Front = Front(
    cfg: Config,
    maths: Maths,
    textOf: Id -> string,
    idOf: string -> Id,
    listing: Picture -> seq<Id>,
    inPlane: (Picture, Id) -> Track,
    search: seq<Track> -> seq<Conflict>,
    conflictSummary: Conflict -> string,
    ruleSummary: (TrackUpdate, AlertKind) -> string,
    deviationSummary: Monitor.NonConformance -> string)

  /** The listing is the picture, placing a track keeps its name and count, and the search is the grid search. */
  ghost predicate Works(f: Front) {
    && f.cfg.Valid() && IsSqrt(f.maths.sqrt)
    && (forall a :: f.idOf(f.textOf(a)) == a) && (forall s :: f.textOf(f.idOf(s)) == s)
    && (forall picture: Picture, a :: a in f.listing(picture) <==> a in picture)
    && (forall picture: Picture, a :: a in picture ==>
          f.inPlane(picture, a).id == f.textOf(a) && f.inPlane(picture, a).updateCount == picture[a].updateCount)
    && (forall tracks :: IsScanOf(f.cfg, f.maths, tracks, f.search(tracks)))
  }

  // ----- Keys -----

  function KindText(kind: AlertKind): string {
    match kind
    case PredictedConflict => "predicted_conflict"
    case NonConformance => "non_conformance"
    case EmergencySquawk => "emergency_squawk"
    case ExcessiveDescent => "excessive_descent"
  }

  /** The key of a condition of one track. */
  function TrackKey(kind: AlertKind, track: string): string {
    KindText(kind) + ":" + track
  }

  function ConflictKey(first: string, second: string): string {
    var (a, b) := PairKey(first, second);
    KindText(PredictedConflict) + ":" + (a + ":" + b)
  }

  /** No colon, as in every track identifier. */
  predicate Plain(name: string) {
    ':' !in name
  }

  lemma FirstPartIsKnown(a: string, b: string, c: string, d: string)
    requires Plain(a) && Plain(c) && a + ":" + b == c + ":" + d
    ensures a == c && b == d
  {
    var (x, y) := (a + ":" + b, c + ":" + d);
    assert x[|a|] == ':' && y[|c|] == ':';
    assert forall i :: 0 <= i < |a| ==> x[i] == a[i] && a[i] != ':';
    assert forall i :: 0 <= i < |c| ==> y[i] == c[i] && c[i] != ':';
    assert x[..|a|] == a && y[..|c|] == c && x[|a| + 1..] == b && y[|c| + 1..] == d;
  }

  /** Two conflicts share a key exactly when they are between the same two tracks. */
  lemma ConflictKeyTellsPair(a: string, b: string, c: string, d: string)
    requires Plain(a) && Plain(b) && Plain(c) && Plain(d)
    ensures ConflictKey(a, b) == ConflictKey(c, d) <==> PairKey(a, b) == PairKey(c, d)
  {
    var (p, q) := (PairKey(a, b), PairKey(c, d));
    var prefix := KindText(PredictedConflict) + ":";
    assert ConflictKey(a, b)[|prefix|..] == p.0 + ":" + p.1 && ConflictKey(c, d)[|prefix|..] == q.0 + ":" + q.1;
    if ConflictKey(a, b) == ConflictKey(c, d) { FirstPartIsKnown(p.0, p.1, q.0, q.1); }
  }

  /** No other condition shares a key with a conflict. */
  lemma OtherKeysDiffer(kind: AlertKind, track: string, a: string, b: string)
    requires kind != PredictedConflict
    ensures TrackKey(kind, track) != ConflictKey(a, b)
  {
    assert TrackKey(kind, track)[0] == KindText(kind)[0] && ConflictKey(a, b)[0] == 'p';
  }

  // ----- Detections -----

  /** Urgency is the time left, not how close the pair will come. */
  function SeverityOf(c: Conflict): Severity {
    if c.timeToCpaS <= 60.0 then Warning else if c.timeToCpaS <= 180.0 then Caution else Advisory
  }

  function ConflictCodes(c: Conflict): seq<string> {
    ["horizontal_below_standard", "vertical_below_standard"]
    + (if c.timeToCpaS <= 0.0 then ["already_in_conflict"] else if c.timeToCpaS < 60.0 then ["imminent"] else [])
    + if c.currentHorizontalNm < c.horizontalStandardNm then ["currently_within_horizontal_standard"] else []
  }

  function ConflictDetection(f: Front, c: Conflict): Detection {
    Detection(f.idOf(ConflictKey(c.firstId, c.secondId)), PredictedConflict, SeverityOf(c), f.conflictSummary(c),
              ConflictCodes(c), [f.idOf(c.firstId), f.idOf(c.secondId)], None)
  }

  function RuleDetection(f: Front, a: Id, u: TrackUpdate, r: RuleFinding): Detection {
    Detection(f.idOf(TrackKey(r.kind, f.textOf(a))), r.kind, r.severity, f.ruleSummary(u, r.kind),
              r.reasonCodes, [a], u.scenarioId)
  }

  function Placed(f: Front, picture: Picture): seq<Track> {
    var list := f.listing(picture);
    seq(|list|, i requires 0 <= i < |list| => f.inPlane(picture, list[i]))
  }

  function ConflictDetections(f: Front, cs: seq<Conflict>): (ds: seq<Detection>)
    ensures |ds| == |cs| && forall i :: 0 <= i < |ds| ==> ds[i] == ConflictDetection(f, cs[i])
  {
    seq(|cs|, i requires 0 <= i < |cs| => ConflictDetection(f, cs[i]))
  }

  function DetectionsOf(f: Front, a: Id, u: TrackUpdate, found: seq<RuleFinding>): (ds: seq<Detection>)
    ensures |ds| == |found| && forall i :: 0 <= i < |ds| ==> ds[i] == RuleDetection(f, a, u, found[i])
  {
    seq(|found|, i requires 0 <= i < |found| => RuleDetection(f, a, u, found[i]))
  }

  function RuleDetections(f: Front, picture: Picture, list: seq<Id>): seq<Detection> {
    if list == [] then []
    else
      var a := list[0];
      (if a in picture then DetectionsOf(f, a, picture[a], Check(picture[a])) else [])
      + RuleDetections(f, picture, list[1..])
  }

  /** Everything one scan detects in a picture: the conflicts, then what the rules find on each track. */
  function Detected(f: Front, picture: Picture): seq<Detection> {
    ConflictDetections(f, f.search(Placed(f, picture))) + RuleDetections(f, picture, f.listing(picture))
  }

  function DetectorsOf(f: Front): Detectors {
    Detectors(picture => Detected(f, picture), a => f.idOf(TrackKey(AlertKind.NonConformance, f.textOf(a))),
              f.deviationSummary)
  }

  // ----- The detectors name only the picture -----

  lemma PlacedIs(f: Front, picture: Picture, t: Track)
    requires Works(f)
    ensures t in Placed(f, picture) <==> exists a :: a in picture && t == f.inPlane(picture, a)
  {
    var list := f.listing(picture);
    if t in Placed(f, picture) {
      var i :| 0 <= i < |list| && t == Placed(f, picture)[i];
      assert list[i] in picture;
    }
    if a :| a in picture && t == f.inPlane(picture, a) {
      var i :| 0 <= i < |list| && list[i] == a;
      assert Placed(f, picture)[i] == t;
    }
  }

  /** The detection is of a rule that fired on the track. */
  predicate RuleOn(f: Front, picture: Picture, a: Id, d: Detection) {
    && a in picture && d.trackIds == [a] && d.key == f.idOf(TrackKey(d.kind, f.textOf(a)))
    && Fires(d.kind, picture[a])
  }

  lemma {:induction false} RulesName(f: Front, picture: Picture, list: seq<Id>, d: Detection)
    requires d in RuleDetections(f, picture, list)
    ensures exists a :: RuleOn(f, picture, a, d)
    ensures d.kind == EmergencySquawk || d.kind == ExcessiveDescent
  {
    var a := list[0];
    var own := if a in picture then DetectionsOf(f, a, picture[a], Check(picture[a])) else [];
    if d in own {
      var i :| 0 <= i < |own| && own[i] == d;
      var r := Check(picture[a])[i];
      assert r in Check(picture[a]) && r.kind == d.kind;
      CheckFindsExactly(picture[a], d.kind);
      OnlyRuleKindsFire(d.kind, picture[a]);
      assert RuleOn(f, picture, a, d);
    } else {
      RulesName(f, picture, list[1..], d);
    }
  }

  lemma OnlyRuleKindsFire(kind: AlertKind, u: TrackUpdate)
    requires Fires(kind, u)
    ensures kind == EmergencySquawk || kind == ExcessiveDescent
  {
  }

  /** A conflict is between two different tracks of the picture, both seen often enough. */
  lemma ConflictNames(f: Front, picture: Picture, c: Conflict) returns (a: Id, b: Id)
    requires Works(f) && c in f.search(Placed(f, picture))
    ensures a in picture && b in picture && a != b
    ensures c.firstId == f.textOf(a) && c.secondId == f.textOf(b)
    ensures SeenEnough(f.cfg, f.inPlane(picture, a)) && SeenEnough(f.cfg, f.inPlane(picture, b))
  {
    hide TestPair, ReportOf, NearPairs, SoonestFirst, DistinctKeys;
    var tracks := Placed(f, picture);
    assert IsScanOf(f.cfg, f.maths, tracks, f.search(tracks));
    var s, t :| s in tracks && t in tracks && Conflicts(f.cfg, f.maths, s, t)
      && TestPair(f.cfg, f.maths, s, t) == Some(c);
    TestNamesItsTracks(f.cfg, f.maths, s, t);
    PlacedIs(f, picture, s);
    PlacedIs(f, picture, t);
    a :| a in picture && s == f.inPlane(picture, a);
    b :| b in picture && t == f.inPlane(picture, b);
  }

  lemma DetectedIs(f: Front, picture: Picture, d: Detection)
    requires Works(f) && d in Detected(f, picture)
    ensures d.kind == PredictedConflict ==>
      exists c :: c in f.search(Placed(f, picture)) && d == ConflictDetection(f, c)
    ensures d.kind != PredictedConflict ==> exists a :: RuleOn(f, picture, a, d)
    ensures d.kind == PredictedConflict || d.kind == EmergencySquawk || d.kind == ExcessiveDescent
  {
    hide Works, RuleOn;
    var cs := f.search(Placed(f, picture));
    var ds := ConflictDetections(f, cs);
    if d in ds {
      var i :| 0 <= i < |ds| && ds[i] == d;
      assert cs[i] in cs;
    } else {
      RulesName(f, picture, f.listing(picture), d);
    }
  }

  /** What the service assumes of its detectors holds of them. */
  lemma DetectorsNameOnlyThePicture(f: Front)
    requires Works(f)
    ensures NameOnlyThePicture(DetectorsOf(f))
  {
    hide Works, Detected;
    forall picture: Picture, i, j
      | 0 <= i < |Detected(f, picture)| && 0 <= j < |Detected(f, picture)[i].trackIds|
      ensures Detected(f, picture)[i].trackIds[j] in picture
    {
      DetectionNames(f, picture, Detected(f, picture)[i], j);
    }
  }

  lemma DetectionNames(f: Front, picture: Picture, d: Detection, j: nat)
    requires Works(f) && d in Detected(f, picture) && j < |d.trackIds|
    ensures d.trackIds[j] in picture
  {
    hide Works, Detected, Placed;
    DetectedIs(f, picture, d);
    if d.kind == PredictedConflict {
      var c :| c in f.search(Placed(f, picture)) && d == ConflictDetection(f, c);
      var a, b := ConflictNames(f, picture, c);
      TextIsFaithful(f, a);
      TextIsFaithful(f, b);
    }
  }

  lemma TextIsFaithful(f: Front, a: Id)
    requires Works(f)
    ensures f.idOf(f.textOf(a)) == a
  {
  }

  // ----- A conflict is detected exactly when the two will breach -----

  /** Both tracks are in the picture, seen often enough, and at one moment of the lookahead will be inside
      both standards. */
  ghost predicate WillBreach(f: Front, picture: Picture, a: Id, b: Id) {
    && a in picture && b in picture
    && picture[a].updateCount >= f.cfg.minUpdates && picture[b].updateCount >= f.cfg.minUpdates
    && exists t :: 0.0 <= t <= f.cfg.lookaheadS
              && Breach(f.cfg, RelativeMotion(f.inPlane(picture, a), f.inPlane(picture, b)), t)
  }

  /** The picture is one the grid search is exact on, and the two tracks' relative rates are zero or at least
      the tolerance. */
  ghost predicate Judgeable(f: Front, picture: Picture, a: Id, b: Id)
    requires IsSqrt(f.maths.sqrt)
  {
    && Scannable(f.cfg, f.maths, Placed(f, picture))
    && (forall k :: k in picture ==> Plain(f.textOf(k)))
    && (a in picture && b in picture ==>
          Resolved(RelativeMotion(f.inPlane(picture, a), f.inPlane(picture, b))))
  }

  function KeyOfPair(f: Front, a: Id, b: Id): Id {
    f.idOf(ConflictKey(f.textOf(a), f.textOf(b)))
  }

  /** No two tracks of a picture share a name. */
  lemma PlacedAreDistinct(f: Front, picture: Picture)
    requires Works(f)
    ensures DistinctIds(f.cfg, Placed(f, picture))
  {
    forall s, t | s in Placed(f, picture) && t in Placed(f, picture) && s.id == t.id ensures s == t {
      PlacedIs(f, picture, s);
      PlacedIs(f, picture, t);
    }
  }

  predicate NamesPair(d: Detection, a: Id, b: Id) {
    d.trackIds == [a, b] || d.trackIds == [b, a]
  }

  lemma SameText(f: Front, s: string, t: string)
    requires Works(f)
    ensures f.idOf(s) == f.idOf(t) <==> s == t
  {
    assert f.textOf(f.idOf(s)) == s && f.textOf(f.idOf(t)) == t;
  }

  /** Whatever is detected under the pair's key is a conflict between the two. */
  lemma KeyMeansPair(f: Front, picture: Picture, a: Id, b: Id, d: Detection) returns (c: Conflict)
    requires Works(f) && d in Detected(f, picture) && d.key == KeyOfPair(f, a, b)
    requires Plain(f.textOf(a)) && Plain(f.textOf(b)) && forall k :: k in picture ==> Plain(f.textOf(k))
    ensures c in f.search(Placed(f, picture)) && PairKey(c.firstId, c.secondId) == PairKey(f.textOf(a), f.textOf(b))
    ensures NamesPair(d, a, b) && a in picture && b in picture
    ensures picture[a].updateCount >= f.cfg.minUpdates && picture[b].updateCount >= f.cfg.minUpdates
  {
    hide Works, PairKey;
    DetectedIs(f, picture, d);
    if d.kind != PredictedConflict {
      var k :| RuleOn(f, picture, k, d);
      SameText(f, TrackKey(d.kind, f.textOf(k)), ConflictKey(f.textOf(a), f.textOf(b)));
      OtherKeysDiffer(d.kind, f.textOf(k), f.textOf(a), f.textOf(b));
      assert false;
    }
    c :| c in f.search(Placed(f, picture)) && d == ConflictDetection(f, c);
    var x, y := ConflictNames(f, picture, c);
    SameText(f, ConflictKey(c.firstId, c.secondId), ConflictKey(f.textOf(a), f.textOf(b)));
    ConflictKeyTellsPair(c.firstId, c.secondId, f.textOf(a), f.textOf(b));
    PairKeyIsUnordered(c.firstId, c.secondId, f.textOf(a), f.textOf(b));
    TextIsFaithful(f, x);
    TextIsFaithful(f, y);
    TextIsFaithful(f, a);
    TextIsFaithful(f, b);
    CountIsKept(f, picture, x);
    CountIsKept(f, picture, y);
  }

  lemma CountIsKept(f: Front, picture: Picture, a: Id)
    requires Works(f) && a in picture
    ensures f.inPlane(picture, a).id == f.textOf(a) && f.inPlane(picture, a).updateCount == picture[a].updateCount
    ensures f.inPlane(picture, a) in Placed(f, picture)
  {
    PlacedIs(f, picture, f.inPlane(picture, a));
  }

  lemma {:induction false} CurrentHolds(ds: seq<Detection>, d: Detection)
    requires d in ds
    ensures d.key in Current(ds)
  {
    if d != ds[|ds| - 1] { CurrentHolds(ds[..|ds| - 1], d); }
  }

  /** On such a picture a scan detects the pair exactly when the two will breach, and what it then holds under
      the pair's key names the two. */
  lemma DetectedExactlyWhenBreaching(f: Front, picture: Picture, a: Id, b: Id)
    requires Works(f) && a != b && Judgeable(f, picture, a, b) && Plain(f.textOf(a)) && Plain(f.textOf(b))
    ensures var seen := Lookup(Current(Detected(f, picture)), KeyOfPair(f, a, b));
      && (seen.Some? <==> WillBreach(f, picture, a, b))
      && (seen.Some? ==> NamesPair(seen.value, a, b))
  {
    hide Works, Scannable, IsScanOf, Resolved, RelativeMotion, Breach, PairKey, Placed, ConflictKey;
    var (ds, k) := (Detected(f, picture), KeyOfPair(f, a, b));
    if k in Current(ds) {
      var c := KeyMeansPair(f, picture, a, b, Current(ds)[k]);
      SearchIsExact(f, picture, a, b);
    } else if WillBreach(f, picture, a, b) {
      SearchIsExact(f, picture, a, b);
      var c :| c in f.search(Placed(f, picture)) && PairKey(c.firstId, c.secondId) == PairKey(f.textOf(a), f.textOf(b));
      ConflictIsDetected(f, picture, c);
      SameKeyForPair(c.firstId, c.secondId, f.textOf(a), f.textOf(b));
      CurrentHolds(ds, ConflictDetection(f, c));
    }
  }

  lemma SameKeyForPair(a: string, b: string, c: string, d: string)
    requires PairKey(a, b) == PairKey(c, d)
    ensures ConflictKey(a, b) == ConflictKey(c, d)
  {
  }

  lemma ConflictIsDetected(f: Front, picture: Picture, c: Conflict)
    requires c in f.search(Placed(f, picture))
    ensures ConflictDetection(f, c) in Detected(f, picture)
  {
    var cs := f.search(Placed(f, picture));
    var i :| 0 <= i < |cs| && cs[i] == c;
    assert ConflictDetections(f, cs)[i] == ConflictDetection(f, c);
  }

  /** The search lists the pair exactly when the two will breach. */
  lemma SearchIsExact(f: Front, picture: Picture, a: Id, b: Id)
    requires Works(f) && a != b && Judgeable(f, picture, a, b) && a in picture && b in picture
    requires picture[a].updateCount >= f.cfg.minUpdates && picture[b].updateCount >= f.cfg.minUpdates
    ensures (exists c :: c in f.search(Placed(f, picture))
                    && PairKey(c.firstId, c.secondId) == PairKey(f.textOf(a), f.textOf(b)))
       <==> WillBreach(f, picture, a, b)
  {
    hide Scannable, IsScanOf, Resolved, RelativeMotion, Breach, PairKey, Placed, DistinctIds;
    CountIsKept(f, picture, a);
    CountIsKept(f, picture, b);
    PlacedAreDistinct(f, picture);
    TextIsFaithful(f, a);
    TextIsFaithful(f, b);
    ScanReportsExactlyTheBreaches(f.cfg, f.maths, Placed(f, picture), f.search(Placed(f, picture)),
                                  f.inPlane(picture, a), f.inPlane(picture, b));
  }

  // ----- A rule's condition is detected exactly when it holds -----

  function KeyOfTrack(f: Front, kind: AlertKind, a: Id): Id {
    f.idOf(TrackKey(kind, f.textOf(a)))
  }

  /** Conditions of one track share a key exactly when they are of one kind and one track. */
  lemma TrackKeyTellsKindAndTrack(kind: AlertKind, a: string, other: AlertKind, b: string)
    ensures TrackKey(kind, a) == TrackKey(other, b) <==> kind == other && a == b
  {
    KindsArePlain(kind);
    KindsArePlain(other);
    if TrackKey(kind, a) == TrackKey(other, b) {
      assert KindText(kind) + ":" + a == KindText(other) + ":" + b;
      FirstPartIsKnown(KindText(kind), a, KindText(other), b);
      KindsDiffer(kind, other);
    }
  }

  lemma KindsArePlain(kind: AlertKind)
    ensures Plain(KindText(kind))
  {
  }

  lemma KindsDiffer(kind: AlertKind, other: AlertKind)
    ensures KindText(kind) == KindText(other) ==> kind == other
  {
    assert KindText(PredictedConflict)[0] == 'p' && KindText(AlertKind.NonConformance)[0] == 'n';
    assert KindText(EmergencySquawk)[1] == 'm' && KindText(ExcessiveDescent)[1] == 'x';
  }

  /** What is detected under a rule's key of a track is that rule, firing on that track. */
  lemma RuleKeyMeansRule(f: Front, picture: Picture, kind: AlertKind, a: Id, d: Detection)
    requires Works(f) && d in Detected(f, picture) && d.key == KeyOfTrack(f, kind, a)
    requires kind == EmergencySquawk || kind == ExcessiveDescent
    ensures RuleOn(f, picture, a, d) && d.kind == kind
  {
    hide Works, Fires;
    DetectedIs(f, picture, d);
    if d.kind == PredictedConflict {
      var c :| c in f.search(Placed(f, picture)) && d == ConflictDetection(f, c);
      SameText(f, TrackKey(kind, f.textOf(a)), ConflictKey(c.firstId, c.secondId));
      OtherKeysDiffer(kind, f.textOf(a), c.firstId, c.secondId);
      assert false;
    }
    var k :| RuleOn(f, picture, k, d);
    SameText(f, TrackKey(d.kind, f.textOf(k)), TrackKey(kind, f.textOf(a)));
    TrackKeyTellsKindAndTrack(d.kind, f.textOf(k), kind, f.textOf(a));
    TextIsFaithful(f, k);
    TextIsFaithful(f, a);
  }

  lemma {:induction false} FiringIsListed(f: Front, picture: Picture, list: seq<Id>, kind: AlertKind, a: Id)
    returns (d: Detection)
    requires a in list && a in picture && Fires(kind, picture[a])
    ensures d in RuleDetections(f, picture, list) && d.key == KeyOfTrack(f, kind, a)
  {
    hide Fires, Check;
    if list[0] == a {
      CheckFindsExactly(picture[a], kind);
      var found := Check(picture[a]);
      var r :| r in found && r.kind == kind;
      var i :| 0 <= i < |found| && found[i] == r;
      d := DetectionsOf(f, a, picture[a], found)[i];
    } else {
      d := FiringIsListed(f, picture, list[1..], kind, a);
    }
  }

  /** A scan detects an emergency code or an excessive descent under the track's key exactly when the track is in the
      picture and the condition holds of it, and what it detects names the track. */
  lemma RuleDetectedExactlyWhenFiring(f: Front, picture: Picture, kind: AlertKind, a: Id)
    requires Works(f) && (kind == EmergencySquawk || kind == ExcessiveDescent)
    ensures var seen := Lookup(Current(Detected(f, picture)), KeyOfTrack(f, kind, a));
      && (seen.Some? <==> a in picture && Fires(kind, picture[a]))
      && (seen.Some? ==> seen.value.trackIds == [a] && seen.value.kind == kind)
  {
    hide Works, Fires, Placed;
    var (ds, k) := (Detected(f, picture), KeyOfTrack(f, kind, a));
    if k in Current(ds) {
      RuleKeyMeansRule(f, picture, kind, a, Current(ds)[k]);
    } else if a in picture && Fires(kind, picture[a]) {
      ListingIsPicture(f, picture, a);
      var d := FiringIsListed(f, picture, f.listing(picture), kind, a);
      CurrentHolds(ds, d);
    }
  }

  lemma ListingIsPicture(f: Front, picture: Picture, a: Id)
    requires Works(f)
    ensures a in f.listing(picture) <==> a in picture
  {
  }

  // ----- What a conflict detection says -----

  /** The sooner, the more urgent: a warning exactly in the last minute, a caution exactly in the two before, and the
      codes say whether the pair is in conflict already, within a minute of it, and inside the horizontal standard
      now. */
  lemma UrgencyIsTimeLeft(f: Front, c: Conflict)
    ensures var d := ConflictDetection(f, c);
      && (d.severity == Warning <==> c.timeToCpaS <= 60.0)
      && (d.severity == Caution <==> 60.0 < c.timeToCpaS <= 180.0)
      && (d.severity == Advisory <==> 180.0 < c.timeToCpaS)
      && ("already_in_conflict" in d.reasonCodes <==> c.timeToCpaS <= 0.0)
      && ("imminent" in d.reasonCodes <==> 0.0 < c.timeToCpaS < 60.0)
      && ("currently_within_horizontal_standard" in d.reasonCodes
          <==> c.currentHorizontalNm < c.horizontalStandardNm)
      && "horizontal_below_standard" in d.reasonCodes && "vertical_below_standard" in d.reasonCodes
  {
    CodesDiffer();
    hide ConflictKey;
    var codes := ConflictCodes(c);
    assert codes[0] == "horizontal_below_standard" && codes[1] == "vertical_below_standard";
    if c.timeToCpaS < 60.0 {
      assert codes[2] == if c.timeToCpaS <= 0.0 then "already_in_conflict" else "imminent";
    }
    if c.currentHorizontalNm < c.horizontalStandardNm {
      assert codes[|codes| - 1] == "currently_within_horizontal_standard";
    }
  }

  lemma CodesDiffer()
    ensures "horizontal_below_standard"[0] == 'h' && "vertical_below_standard"[0] == 'v'
    ensures "already_in_conflict"[0] == 'a' && "imminent"[0] == 'i' && "currently_within_horizontal_standard"[0] == 'c'
  {
  }
}
