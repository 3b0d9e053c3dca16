/** The alert lifecycle (alerts.py): one scan's detections in, state changes out, one alert key at a time
    and then all of them in the manager object. */
module Alerts {
  import opened Prelude

  datatype AlertKind = PredictedConflict | NonConformance | EmergencySquawk | ExcessiveDescent

  datatype Severity = Info | Advisory | Caution | Warning

  datatype AlertState = New | Sustained | Cleared

  /** A detector's answer for one condition at one instant. */
  datatype Detection = Detection(
    key: Id,
    kind: AlertKind,
    severity: Severity,
    summary: string,
    reasonCodes: seq<string>,
    trackIds: seq<Id>,
    scenarioId: Option<string>)

  /** A condition currently being tracked. */
  datatype Active = Active(
    alertId: nat,
    raisedAt: real,
    lastPublishedAt: real,
    detection: Detection,
    missedScans: nat)

  datatype Alert = Alert(
    alertId: nat,
    key: Id,
    kind: AlertKind,
    severity: Severity,
    state: AlertState,
    raisedAt: real,
    updatedAt: real,
    trackIds: seq<Id>,
    reasonCodes: seq<string>,
    summary: string,
    scenarioId: Option<string>)

  datatype Policy = Policy(clearAfterScans: nat, sustainIntervalS: real)

  function Render(a: Active, d: Detection, state: AlertState, now: real): Alert {
    var summary := if state == Cleared then "Cleared: " + d.summary else d.summary;
    Alert(a.alertId, d.key, d.kind, d.severity, state, a.raisedAt, now, d.trackIds, d.reasonCodes, summary,
          d.scenarioId)
  }

  // ----- What happens to one key -----

  /** What one call does to one key: what is then tracked, and what is published for it. */
  datatype Outcome = Outcome(slot: Option<Active>, out: Option<Alert>)

  /** One scan, for one key: `seen` is this scan's detection of it, `id` the identifier a new alert
      would be given. */
  function ScanKey(policy: Policy, slot: Option<Active>, seen: Option<Detection>, now: real, id: nat): Outcome {
    match (slot, seen)
    case (None, None) => Outcome(None, None)
    case (None, Some(d)) =>
      var a := Active(id, now, now, d, 0);
      Outcome(Some(a), Some(Render(a, d, New, now)))
    case (Some(a), Some(d)) =>
      if now - a.lastPublishedAt >= policy.sustainIntervalS then
        Outcome(Some(Active(a.alertId, a.raisedAt, now, d, 0)), Some(Render(a, d, Sustained, now)))
      else
        Outcome(Some(a.(detection := d, missedScans := 0)), None)
    case (Some(a), None) =>
      if a.missedScans + 1 >= policy.clearAfterScans then Outcome(None, Some(Render(a, a.detection, Cleared, now)))
      else Outcome(Some(a.(missedScans := a.missedScans + 1)), None)
  }

  predicate Names(d: Detection, gone: set<Id>) {
    exists i :: 0 <= i < |d.trackIds| && d.trackIds[i] in gone
  }

  /** Forgetting vanished tracks, for one key. */
  function ForgetKey(slot: Option<Active>, gone: set<Id>, now: real): Outcome {
    if slot.Some? && Names(slot.value.detection, gone) then
      Outcome(None, Some(Render(slot.value, slot.value.detection, Cleared, now)))
    else Outcome(slot, None)
  }

  // ----- All keys at once -----

  function AsSeq<T>(o: Option<T>): seq<T> {
    if o.Some? then [o.value] else []
  }

  /** One scan's detections by key; a later detection of the same key replaces an earlier one. */
  function Current(detections: seq<Detection>): (m: map<Id, Detection>)
    ensures forall k :: k in m ==> m[k].key == k && m[k] in detections
  {
    if detections == [] then map[]
    else
      var d := detections[|detections| - 1];
      Current(detections[..|detections| - 1])[d.key := d]
  }

  /** The alerts published for one key, in order. */
  function ForKey(alerts: seq<Alert>, k: Id): (r: seq<Alert>)
    ensures forall i :: 0 <= i < |r| ==> r[i].key == k && r[i] in alerts
  {
    if alerts == [] then []
    else
      var a := alerts[|alerts| - 1];
      ForKey(alerts[..|alerts| - 1], k) + if a.key == k then [a] else []
  }

  lemma ForKeyAppend(alerts: seq<Alert>, a: Alert, k: Id)
    ensures ForKey(alerts + [a], k) == ForKey(alerts, k) + if a.key == k then [a] else []
  {
    assert (alerts + [a])[..|alerts|] == alerts;
  }

  lemma {:induction false} ForKeyConcat(s: seq<Alert>, t: seq<Alert>, k: Id)
    ensures ForKey(s + t, k) == ForKey(s, k) + ForKey(t, k)
  {
    if t == [] {
      assert s + t == s;
    } else {
      ForKeyConcat(s, t[..|t| - 1], k);
      assert s + t == (s + t[..|t| - 1]) + [t[|t| - 1]];
      ForKeyAppend(s + t[..|t| - 1], t[|t| - 1], k);
    }
  }

  /** Every tracked condition is filed under its own key. */
  predicate Filed(active: map<Id, Active>) {
    forall k :: k in active ==> active[k].detection.key == k
  }

  function ScanOutcome(policy: Policy, active: map<Id, Active>, detections: seq<Detection>, now: real,
                       ids: Id -> nat, k: Id): Outcome {
    ScanKey(policy, Lookup(active, k), Lookup(Current(detections), k), now, ids(k))
  }

  /** What a scan publishes as new for a key bears the identifier supplied for it, and the time of the scan. */
  lemma NewBearsId(policy: Policy, active: map<Id, Active>, detections: seq<Detection>, now: real, ids: Id -> nat,
                   k: Id)
    ensures var out := ScanOutcome(policy, active, detections, now, ids, k).out;
      out.Some? && out.value.state == New ==> out.value.alertId == ids(k) && out.value.raisedAt == now
  {
  }

  lemma {:induction false} AmongForKey(alerts: seq<Alert>, a: Alert)
    requires a in alerts
    ensures a in ForKey(alerts, a.key)
  {
    if a != alerts[|alerts| - 1] { AmongForKey(alerts[..|alerts| - 1], a); }
  }

  function ForgetOutcome(active: map<Id, Active>, gone: set<Id>, now: real, k: Id): Outcome {
    ForgetKey(Lookup(active, k), gone, now)
  }

  function With(active: map<Id, Active>, k: Id, slot: Option<Active>): (r: map<Id, Active>)
    ensures forall k' :: Lookup(r, k') == if k' == k then slot else Lookup(active, k')
  {
    if slot.Some? then active[k := slot.value] else active - {k}
  }

  /** Publishing at most one alert, filed under `key`. */
  lemma PublishedFor(before: seq<Alert>, out: Option<Alert>, key: Id)
    requires out.Some? ==> out.value.key == key
    ensures forall k :: ForKey(before + AsSeq(out), k) == ForKey(before, k) + if k == key then AsSeq(out) else []
  {
    forall k ensures ForKey(before + AsSeq(out), k) == ForKey(before, k) + if k == key then AsSeq(out) else [] {
      if out.Some? {
        ForKeyAppend(before, out.value, k);
      } else {
        assert before + AsSeq(out) == before;
      }
    }
  }

  // ----- One pass over the keys -----

  datatype Kind = Observing(current: map<Id, Detection>, ids: Id -> nat) | Missing | Forgetting(gone: set<Id>)

  /** A pass over the keys: over those a scan detected, over those it did not, or over those that name a
      vanished track. */
  datatype Pass = Pass(policy: Policy, before: map<Id, Active>, kind: Kind, now: real)

  /** What the pass does to one key. */
  function OutcomeOf(p: Pass, k: Id): Outcome {
    match p.kind
    case Observing(current, ids) => ScanKey(p.policy, Lookup(p.before, k), Lookup(current, k), p.now, ids(k))
    case Missing => ScanKey(p.policy, Lookup(p.before, k), None, p.now, 0)
    case Forgetting(gone) => ForgetKey(Lookup(p.before, k), gone, p.now)
  }

  function Undetected(active: map<Id, Active>, current: map<Id, Detection>): (r: set<Id>)
    ensures forall k :: k in r <==> k in active && k !in current
  {
    active.Keys - current.Keys
  }

  /** Part way through a pass: the keys in `done` have been dealt with, the others not yet. */
  ghost predicate Midway(p: Pass, active: map<Id, Active>, published: seq<Alert>, done: set<Id>) {
    && Filed(active)
    && (forall k :: Lookup(active, k) == if k in done then OutcomeOf(p, k).slot else Lookup(p.before, k))
    && (forall k :: ForKey(published, k) == if k in done then AsSeq(OutcomeOf(p, k).out) else [])
  }

  lemma MidwayStart(p: Pass)
    requires Filed(p.before)
    ensures Midway(p, p.before, [], {})
  {
  }

  lemma MidwayAt(p: Pass, active: map<Id, Active>, published: seq<Alert>, done: set<Id>, key: Id)
    requires Midway(p, active, published, done) && key !in done
    ensures Filed(active) && Lookup(active, key) == Lookup(p.before, key)
    ensures key in p.before ==> key in active && active[key].detection.key == key
  {
    assert Lookup(active, key) == Lookup(p.before, key);
  }

  lemma MidwayStep(p: Pass, active: map<Id, Active>, published: seq<Alert>, done: set<Id>, key: Id, after: map<Id,
                   Active>,
                   out: Option<Alert>)
    requires Midway(p, active, published, done) && key !in done
    requires Filed(after) && after == With(active, key, OutcomeOf(p, key).slot) && out == OutcomeOf(p, key).out
    requires out.Some? ==> out.value.key == key
    ensures Midway(p, after, published + AsSeq(out), done + {key})
  {
    hide With, ForKey, Filed, Lookup, OutcomeOf;
    PublishedFor(published, out, key);
  }

  lemma MissIgnoresId(policy: Policy, slot: Option<Active>, now: real, id: nat, id': nat)
    ensures ScanKey(policy, slot, None, now, id) == ScanKey(policy, slot, None, now, id')
  {
  }

  lemma MidwayIsFiled(p: Pass, active: map<Id, Active>, published: seq<Alert>, done: set<Id>)
    requires Midway(p, active, published, done)
    ensures Filed(active)
  {
  }

  lemma MidwayLookups(p: Pass, active: map<Id, Active>, published: seq<Alert>, done: set<Id>, k: Id)
    requires Midway(p, active, published, done)
    ensures Lookup(active, k) == if k in done then OutcomeOf(p, k).slot else Lookup(p.before, k)
    ensures ForKey(published, k) == if k in done then AsSeq(OutcomeOf(p, k).out) else []
    ensures k !in p.before && !p.kind.Observing? ==> OutcomeOf(p, k) == Outcome(None, None)
  {
  }

  /** The pass over this scan's detections followed by the pass over the conditions it did not detect. */
  lemma ReconcileDone(policy: Policy, before: map<Id, Active>, observed: map<Id, Active>, after: map<Id, Active>,
                      raised: seq<Alert>, cleared: seq<Alert>, detections: seq<Detection>, now: real, ids: Id -> nat)
    requires Midway(Pass(policy, before, Observing(Current(detections), ids), now), observed, raised,
                    Current(detections).Keys)
    requires Midway(Pass(policy, observed, Missing, now), after, cleared, Undetected(observed, Current(detections)))
    ensures Filed(after)
    ensures forall k :: Lookup(after, k) == ScanOutcome(policy, before, detections, now, ids, k).slot
    ensures forall k :: ForKey(raised + cleared, k) == AsSeq(ScanOutcome(policy, before, detections, now, ids, k).out)
  {
    forall k
      ensures Lookup(after, k) == ScanOutcome(policy, before, detections, now, ids, k).slot
      ensures ForKey(raised + cleared, k) == AsSeq(ScanOutcome(policy, before, detections, now, ids, k).out)
    {
      ReconcileKey(policy, before, observed, after, raised, cleared, detections, now, ids, k);
    }
  }

  lemma ReconcileKey(policy: Policy, before: map<Id, Active>, observed: map<Id, Active>, after: map<Id, Active>,
                     raised: seq<Alert>, cleared: seq<Alert>, detections: seq<Detection>, now: real, ids: Id -> nat,
                     k: Id)
    requires Midway(Pass(policy, before, Observing(Current(detections), ids), now), observed, raised,
                    Current(detections).Keys)
    requires Midway(Pass(policy, observed, Missing, now), after, cleared, Undetected(observed, Current(detections)))
    ensures Lookup(after, k) == ScanOutcome(policy, before, detections, now, ids, k).slot
    ensures ForKey(raised + cleared, k) == AsSeq(ScanOutcome(policy, before, detections, now, ids, k).out)
  {
    hide ScanKey, ForKey, Midway;
    MidwayLookups(Pass(policy, before, Observing(Current(detections), ids), now), observed, raised,
                  Current(detections).Keys, k);
    MidwayLookups(Pass(policy, observed, Missing, now), after, cleared, Undetected(observed, Current(detections)), k);
    ForKeyConcat(raised, cleared, k);
    MissIgnoresId(policy, Lookup(before, k), now, ids(k), 0);
  }

  lemma ForgetDone(policy: Policy, before: map<Id, Active>, active: map<Id, Active>, cleared: seq<Alert>,
                   gone: set<Id>, now: real)
    requires Midway(Pass(policy, before, Forgetting(gone), now), active, cleared, before.Keys)
    ensures Filed(active)
    ensures forall k :: Lookup(active, k) == ForgetOutcome(before, gone, now, k).slot
    ensures forall k :: ForKey(cleared, k) == AsSeq(ForgetOutcome(before, gone, now, k).out)
  {
    hide ForgetKey, ForKey;
    forall k
      ensures Lookup(active, k) == ForgetOutcome(before, gone, now, k).slot
      ensures ForKey(cleared, k) == AsSeq(ForgetOutcome(before, gone, now, k).out)
    {
      MidwayLookups(Pass(policy, before, Forgetting(gone), now), active, cleared, before.Keys, k);
    }
  }

  /** One scan's detections by key, collected in order. */
  method Latest(detections: seq<Detection>) returns (current: map<Id, Detection>)
    ensures current == Current(detections)
  {
    current := map[];
    for i := 0 to |detections|
      invariant current == Current(detections[..i])
    {
      assert detections[..i + 1][..i] == detections[..i];
      current := current[detections[i].key := detections[i]];
    }
    assert detections[..|detections|] == detections;
  }

  // ----- The manager -----

  class AlertManager {
    const policy: Policy
    var active: map<Id, Active>

    ghost predicate Valid()
      reads this
    {
      Filed(active)
    }

    constructor (policy: Policy)
      ensures Valid() && this.policy == policy && active == map[]
    {
      this.policy, active := policy, map[];
    }

    /** Raise, refresh or republish the condition just detected. */
    method Observe(key: Id, detection: Detection, now: real, id: nat) returns (out: Option<Alert>)
      requires detection.key == key
      modifies this
      ensures var o := ScanKey(policy, Lookup(old(active), key), Some(detection), now, id);
        active == With(old(active), key, o.slot) && out == o.out
      ensures out.Some? ==> out.value.key == key
      ensures Filed(old(active)) ==> Filed(active)
    {
      out := None;
      if key !in active {
        var a := Active(id, now, now, detection, 0);
        active := active[key := a];
        out := Some(Render(a, detection, New, now));
      } else {
        active := active[key := active[key].(missedScans := 0, detection := detection)];
        if now - active[key].lastPublishedAt >= policy.sustainIntervalS {
          active := active[key := active[key].(lastPublishedAt := now)];
          out := Some(Render(active[key], detection, Sustained, now));
        }
      }
    }

    /** Count a scan that did not detect a tracked condition, and clear it after enough of them. */
    method Miss(key: Id, now: real) returns (out: Option<Alert>)
      requires key in active && active[key].detection.key == key
      modifies this
      ensures out.Some? ==> out.value.key == key
      ensures Filed(old(active)) ==> Filed(active)
      ensures var o := ScanKey(policy, Lookup(old(active), key), None, now, 0);
        active == With(old(active), key, o.slot) && out == o.out
    {
      out := None;
      var a := active[key].(missedScans := active[key].missedScans + 1);
      active := active[key := a];
      if a.missedScans >= policy.clearAfterScans {
        active := active - {key};
        out := Some(Render(a, a.detection, Cleared, now));
      }
    }

    method ObserveAll(current: map<Id, Detection>, now: real, ids: Id -> nat) returns (published: seq<Alert>)
      requires Filed(active) && forall k :: k in current ==> current[k].key == k
      modifies this
      ensures Midway(Pass(policy, old(active), Observing(current, ids), now), active, published, current.Keys)
    {
      hide ScanKey, With, Midway, Filed;
      ghost var pass := Pass(policy, active, Observing(current, ids), now);
      MidwayStart(pass);
      published := [];
      var todo := current.Keys;
      assert current.Keys - todo == {};
      while todo != {}
        invariant todo <= current.Keys
        invariant Midway(pass, active, published, current.Keys - todo)
        decreases |todo|
      {
        var key :| key in todo;
        ghost var (was, done) := (active, current.Keys - todo);
        todo := todo - {key};
        MidwayAt(pass, active, published, done, key);
        var out := Observe(key, current[key], now, ids(key));
        MidwayStep(pass, was, published, done, key, active, out);
        assert current.Keys - todo == done + {key};
        published := published + AsSeq(out);
      }
      assert current.Keys - todo == current.Keys;
    }

    /** Conditions tracked but not detected by this scan. */
    method MissAll(current: map<Id, Detection>, now: real) returns (published: seq<Alert>)
      requires Filed(active)
      modifies this
      ensures Midway(Pass(policy, old(active), Missing, now), active, published, Undetected(old(active), current))
    {
      hide ScanKey, With, Midway, Filed, Undetected;
      ghost var pass := Pass(policy, active, Missing, now);
      MidwayStart(pass);
      published := [];
      var missed := Undetected(active, current);
      var todo := missed;
      assert missed - todo == {};
      while todo != {}
        invariant todo <= missed
        invariant Midway(pass, active, published, missed - todo)
        decreases |todo|
      {
        var key :| key in todo;
        ghost var (was, done) := (active, missed - todo);
        todo := todo - {key};
        MidwayAt(pass, active, published, done, key);
        var out := Miss(key, now);
        MidwayStep(pass, was, published, done, key, active, out);
        assert missed - todo == done + {key};
        published := published + AsSeq(out);
      }
      assert missed - todo == missed;
    }

    /** Fold one scan's detections into the lifecycle.  `ids` supplies the identifiers of alerts raised
        by this scan.  Every key is treated as `ScanKey` says, and nothing else is published. */
    method Reconcile(detections: seq<Detection>, now: real, ids: Id -> nat) returns (published: seq<Alert>)
      requires Valid()
      modifies this
      ensures Valid()
      ensures forall k :: Lookup(active, k) == ScanOutcome(policy, old(active), detections, now, ids, k).slot
      ensures forall k :: ForKey(published, k) == AsSeq(ScanOutcome(policy, old(active), detections, now, ids, k).out)
      ensures forall i :: 0 <= i < |published| && published[i].state == New ==>
        published[i].alertId == ids(published[i].key) && published[i].raisedAt == now
    {
      hide ScanKey, ForKey, Midway, ScanOutcome;
      var current := Latest(detections);
      published := ObserveAll(current, now, ids);
      ghost var observed := active;
      MidwayIsFiled(Pass(policy, old(active), Observing(current, ids), now), active, published, current.Keys);
      var cleared := MissAll(current, now);
      ReconcileDone(policy, old(active), observed, active, published, cleared, detections, now, ids);
      published := published + cleared;
      forall i | 0 <= i < |published| && published[i].state == New
        ensures published[i].alertId == ids(published[i].key) && published[i].raisedAt == now
      {
        AmongForKey(published, published[i]);
        NewBearsId(policy, old(active), detections, now, ids, published[i].key);
      }
    }

    /** Clear one alert if it names a vanished track. */
    method ForgetOne(key: Id, gone: set<Id>, now: real) returns (out: Option<Alert>)
      requires key in active && active[key].detection.key == key
      modifies this
      ensures var o := ForgetKey(Lookup(old(active), key), gone, now);
        active == With(old(active), key, o.slot) && out == o.out
      ensures out.Some? ==> out.value.key == key
      ensures Filed(old(active)) ==> Filed(active)
    {
      out := None;
      var a := active[key];
      if Names(a.detection, gone) {
        active := active - {key};
        out := Some(Render(a, a.detection, Cleared, now));
      } else {
        assert active == active[key := a];
      }
    }

    /** Clear every alert that names a vanished track, and no other. */
    method Forget(gone: set<Id>, now: real) returns (cleared: seq<Alert>)
      requires Valid()
      modifies this
      ensures Valid()
      ensures forall k :: Lookup(active, k) == ForgetOutcome(old(active), gone, now, k).slot
      ensures forall k :: ForKey(cleared, k) == AsSeq(ForgetOutcome(old(active), gone, now, k).out)
    {
      hide ForgetKey, With, Midway, Filed;
      ghost var pass := Pass(policy, active, Forgetting(gone), now);
      MidwayStart(pass);
      cleared := [];
      var held := active.Keys;
      var todo := held;
      assert held - todo == {};
      while todo != {}
        invariant todo <= held
        invariant Midway(pass, active, cleared, held - todo)
        decreases |todo|
      {
        var key :| key in todo;
        ghost var (was, done) := (active, held - todo);
        todo := todo - {key};
        MidwayAt(pass, active, cleared, done, key);
        var out := ForgetOne(key, gone, now);
        MidwayStep(pass, was, cleared, done, key, active, out);
        assert held - todo == done + {key};
        cleared := cleared + AsSeq(out);
      }
      assert held - todo == held;
      ForgetDone(policy, old(active), active, cleared, gone, now);
    }
  }
}
