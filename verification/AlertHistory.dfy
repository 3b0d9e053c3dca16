/** What the alert lifecycle (alerts.py) amounts to over a whole history of scans and forgets, for one
    alert key. */
module AlertHistory {
  import opened Prelude
  import opened Alerts

  /** What one call meant for the key: a scan, with its detection of the key if there was one, or the
      loss of some tracks.  `now` is the time the scanner reasons about, `wall` the time of day. */
  datatype Event =
    | Scan(now: real, wall: real, seen: Option<Detection>, id: nat)
    | Lost(now: real, wall: real, gone: set<Id>)

  /** The condition as tracked now, and everything published for it so far. */
  datatype History = History(slot: Option<Active>, outs: seq<Alert>)

  function React(policy: Policy, slot: Option<Active>, e: Event): Outcome {
    match e
    case Scan(now, wall, seen, id) => ScanKey(policy, slot, seen, now, id)
    case Lost(now, wall, gone) => ForgetKey(slot, gone, now)
  }

  function KeyRun(policy: Policy, events: seq<Event>): History {
    if events == [] then History(None, [])
    else
      var h := KeyRun(policy, events[..|events| - 1]);
      var o := React(policy, h.slot, events[|events| - 1]);
      History(o.slot, h.outs + AsSeq(o.out))
  }

  // ----- A statement about history, with no machine in it -----

  predicate Detects(e: Event) {
    e.Scan? && e.seen.Some?
  }

  /** How many scans followed event `j`. */
  function ScansAfter(events: seq<Event>, j: int): nat
    decreases |events|
  {
    if |events| <= j + 1 || events == [] then 0
    else ScansAfter(events[..|events| - 1], j) + if events[|events| - 1].Scan? then 1 else 0
  }

  function LatestDetection(events: seq<Event>): Option<Detection> {
    if events == [] then None
    else if Detects(events[|events| - 1]) then events[|events| - 1].seen
    else LatestDetection(events[..|events| - 1])
  }

  /** The loss of tracks at event `f` concerned the key: its latest detection named one of them. */
  predicate Hits(events: seq<Event>, f: nat)
    requires f < |events|
  {
    && events[f].Lost?
    && var d := LatestDetection(events[..f]);
    d.Some? && Names(d.value, events[f].gone)
  }

  /** The number of scans a condition survives without being detected, plus one: a policy of zero
      clears on the first miss, as a policy of one does. */
  function Patience(policy: Policy): nat {
    if policy.clearAfterScans == 0 then 1 else policy.clearAfterScans
  }

  /** Event `j` still keeps the key active: it detected the condition in one of the last scans the
      policy looks back over, and no loss of tracks has concerned the key since. */
  predicate Supports(policy: Policy, events: seq<Event>, j: nat) {
    && j < |events| && Detects(events[j]) && ScansAfter(events, j) < Patience(policy)
    && forall f :: j < f < |events| ==> !Hits(events, f)
  }

  lemma SupportIsInherited(policy: Policy, events: seq<Event>, j: nat)
    requires |events| > 0 && j < |events| - 1
    ensures var (before, last) := (events[..|events| - 1], |events| - 1);
      Supports(policy, events, j) <==>
      (Supports(policy, before, j) && !Hits(events, last)
       && ScansAfter(before, j) + (if events[last].Scan? then 1 else 0) < Patience(policy))
  {
    var before := events[..|events| - 1];
    forall f | 0 <= f < |before| ensures Hits(before, f) == Hits(events, f) {
      assert before[..f] == events[..f];
    }
    assert ScansAfter(events, j) == ScansAfter(before, j) + (if events[|events| - 1].Scan? then 1 else 0);
    if Supports(policy, events, j) {
      forall f | j < f < |before| ensures !Hits(before, f) { assert !Hits(events, f); }
    }
    hide Hits, ScansAfter;
  }

  /** Scans are counted from the later of two events at most as often. */
  lemma {:induction false} ScansAfterLater(events: seq<Event>, i: nat, j: nat)
    requires i <= j < |events|
    ensures ScansAfter(events, j) <= ScansAfter(events, i)
  {
    if j + 1 < |events| { ScansAfterLater(events[..|events| - 1], i, j); }
  }

  /** `j` is the latest event that detected the condition. */
  ghost predicate IsLatest(events: seq<Event>, j: nat) {
    j < |events| && Detects(events[j]) && LatestDetection(events) == events[j].seen
    && forall i :: j < i < |events| ==> !Detects(events[i])
  }

  lemma LatestIsInherited(events: seq<Event>, j: nat)
    requires |events| > 0 && IsLatest(events[..|events| - 1], j) && !Detects(events[|events| - 1])
    ensures IsLatest(events, j)
  {
  }

  /** The machine state says exactly what the history says. */
  ghost predicate Tells(policy: Policy, events: seq<Event>) {
    var slot := KeyRun(policy, events).slot;
    if slot.None? then forall j: nat :: !Supports(policy, events, j)
    else exists j: nat :: IsLatest(events, j) && Supports(policy, events, j)
                     && slot.value.detection == LatestDetection(events).value
                     && slot.value.missedScans == ScansAfter(events, j)
  }

  lemma NothingNewSupports(policy: Policy, events: seq<Event>)
    requires |events| > 0 && !Detects(events[|events| - 1])
    requires var before := events[..|events| - 1]; forall j: nat :: !Supports(policy, before, j)
    ensures forall j: nat :: !Supports(policy, events, j)
  {
    forall j: nat | Supports(policy, events, j) ensures false {
      SupportIsInherited(policy, events, j);
      assert false;
    }
  }

  lemma {:induction false} StateTellsHistory(policy: Policy, events: seq<Event>)
    ensures Tells(policy, events)
  {
    if events == [] { return; }
    var (before, e) := (events[..|events| - 1], events[|events| - 1]);
    StateTellsHistory(policy, before);
    var slot := KeyRun(policy, before).slot;
    if Detects(e) {
      assert Supports(policy, events, |events| - 1) && IsLatest(events, |events| - 1);
    } else if slot.None? {
      NothingNewSupports(policy, events);
    } else {
      var j: nat :| IsLatest(before, j) && Supports(policy, before, j)
        && slot.value.detection == LatestDetection(before).value
               && slot.value.missedScans == ScansAfter(before, j);
      SupportIsInherited(policy, events, j);
      LatestIsInherited(events, j);
      if KeyRun(policy, events).slot.None? {
        assert !Supports(policy, events, j);
        UnsupportedAtLatest(policy, events, j);
      }
    }
  }

  /** If not even the latest detection supports the key, none does. */
  lemma UnsupportedAtLatest(policy: Policy, events: seq<Event>, latest: nat)
    requires IsLatest(events, latest) && !Supports(policy, events, latest)
    ensures forall j: nat :: !Supports(policy, events, j)
  {
    forall j: nat | Supports(policy, events, j) ensures false {
      ScansAfterLater(events, j, latest);
      hide ScansAfter, Hits;
      assert false;
    }
  }

  /** A key is active exactly when some detection within the last scans still supports it. */
  lemma ActiveExactlyWhenRecentlyDetected(policy: Policy, events: seq<Event>)
    ensures KeyRun(policy, events).slot.Some? <==> exists j: nat :: Supports(policy, events, j)
    ensures KeyRun(policy, events).slot.Some? ==>
      Some(KeyRun(policy, events).slot.value.detection) == LatestDetection(events)
  {
    StateTellsHistory(policy, events);
    hide Supports, ScansAfter, LatestDetection;
  }

  // ----- The published stream -----

  /** A prefix of (New Sustained* Cleared)*: one identifier and one raise time per cycle. */
  predicate Lifecycle(outs: seq<Alert>) {
    forall i :: 0 <= i < |outs| ==> Follows(outs, i)
  }

  predicate Follows(outs: seq<Alert>, i: nat)
    requires i < |outs|
  {
    if i == 0 || outs[i - 1].state == Cleared then outs[i].state == New && outs[i].raisedAt == outs[i].updatedAt
    else outs[i].state != New && outs[i].alertId == outs[i - 1].alertId && outs[i].raisedAt == outs[i - 1].raisedAt
  }

  predicate Open(outs: seq<Alert>) {
    outs != [] && outs[|outs| - 1].state != Cleared
  }

  lemma LifecycleGrows(outs: seq<Alert>, a: Alert)
    requires Lifecycle(outs) && Follows(outs + [a], |outs|)
    ensures Lifecycle(outs + [a])
  {
    forall i | 0 <= i < |outs| + 1 ensures Follows(outs + [a], i) {
      if i < |outs| { assert Follows(outs, i); }
    }
  }

  /** Each key's stream is a run of complete cycles and at most one open one, which is open exactly
      while the key is active; the last alert of an open cycle describes the active condition. */
  lemma {:induction false} StreamIsLifecycle(policy: Policy, events: seq<Event>)
    ensures var h := KeyRun(policy, events);
      && Lifecycle(h.outs)
      && (h.slot.Some? <==> Open(h.outs))
      && (h.slot.Some? ==>
        var last := h.outs[|h.outs| - 1];
        && last.alertId == h.slot.value.alertId && last.raisedAt == h.slot.value.raisedAt
        && last.updatedAt == h.slot.value.lastPublishedAt)
  {
    hide React, Lifecycle;
    if events == [] {
      NothingPublished();
    } else {
      var (before, e) := (events[..|events| - 1], events[|events| - 1]);
      StreamIsLifecycle(policy, before);
      var h := KeyRun(policy, before);
      var o := React(policy, h.slot, e);
      if o.out.Some? {
        assert (h.outs + [o.out.value])[|h.outs|] == o.out.value;
        ReactionContinues(policy, h, e);
        LifecycleGrows(h.outs, o.out.value);
      } else {
        ReactionIsSilent(policy, h.slot, e);
        assert h.outs + AsSeq(o.out) == h.outs;
      }
    }
  }

  lemma NothingPublished()
    ensures Lifecycle([])
  {
  }

  /** What is published for a key continues its stream, and describes the condition as then tracked. */
  lemma ReactionContinues(policy: Policy, h: History, e: Event)
    requires h.slot.Some? <==> Open(h.outs)
    requires h.slot.Some? ==> var last := h.outs[|h.outs| - 1];
      last.alertId == h.slot.value.alertId && last.raisedAt == h.slot.value.raisedAt
    requires React(policy, h.slot, e).out.Some?
    ensures var o := React(policy, h.slot, e);
      && Follows(h.outs + [o.out.value], |h.outs|)
      && (o.slot.Some? <==> o.out.value.state != Cleared)
      && (o.slot.Some? ==>
            o.out.value.alertId == o.slot.value.alertId && o.out.value.raisedAt == o.slot.value.raisedAt
            && o.out.value.updatedAt == o.slot.value.lastPublishedAt)
  {
    var (outs, n) := (h.outs, |h.outs|);
    if n > 0 { assert (outs + [React(policy, h.slot, e).out.value])[n - 1] == outs[n - 1]; }
  }

  lemma ReactionIsSilent(policy: Policy, slot: Option<Active>, e: Event)
    requires React(policy, slot, e).out.None?
    ensures var after := React(policy, slot, e).slot;
      && (after.Some? <==> slot.Some?)
      && (after.Some? ==>
            after.value.alertId == slot.value.alertId && after.value.raisedAt == slot.value.raisedAt
            && after.value.lastPublishedAt == slot.value.lastPublishedAt)
  {
  }

  /** The alert speaks of this detection, in the present tense unless it is being cleared. */
  predicate Describes(a: Alert, d: Detection) {
    && a.key == d.key && a.kind == d.kind && a.severity == d.severity && a.trackIds == d.trackIds
    && a.reasonCodes == d.reasonCodes && a.scenarioId == d.scenarioId
    && a.summary == if a.state == Cleared then "Cleared: " + d.summary else d.summary
  }

  /** Whatever is published for a key, a clearing included, describes its latest detection and carries
      the time of the event. */
  lemma PublishedDescribesLatestDetection(policy: Policy, events: seq<Event>)
    requires |events| > 0
    ensures var (before, e) := (events[..|events| - 1], events[|events| - 1]);
      var out := React(policy, KeyRun(policy, before).slot, e).out;
      out.Some? ==>
        LatestDetection(events).Some? && Describes(out.value, LatestDetection(events).value)
          && out.value.updatedAt == e.now
  {
    hide KeyRun;
    ActiveExactlyWhenRecentlyDetected(policy, events[..|events| - 1]);
  }

  // ----- Timing -----

  function LastScan(events: seq<Event>): Option<real> {
    if events == [] then None
    else if events[|events| - 1].Scan? then Some(events[|events| - 1].now)
    else LastScan(events[..|events| - 1])
  }

  /** Each scan comes at most `d` after the scan before it, and not before it. */
  predicate Paced(events: seq<Event>, d: real) {
    forall n :: 0 <= n < |events| && events[n].Scan? && LastScan(events[..n]).Some? ==>
      0.0 <= events[n].now - LastScan(events[..n]).value <= d
  }

  lemma PacedPrefix(events: seq<Event>, d: real)
    requires |events| > 0 && Paced(events, d)
    ensures Paced(events[..|events| - 1], d)
  {
    var before := events[..|events| - 1];
    forall n | 0 <= n < |before| && before[n].Scan? && LastScan(before[..n]).Some?
      ensures 0.0 <= before[n].now - LastScan(before[..n]).value <= d
    {
      assert before[..n] == events[..n];
    }
  }

  function Times(count: nat, d: real): real {
    count as real * d
  }

  lemma OneMoreTime(count: nat, d: real)
    ensures Times(count + 1, d) == Times(count, d) + d && Times(0, d) == 0.0
    ensures d >= 0.0 ==> Times(count, d) >= 0.0
  {
    if d >= 0.0 { ProductIsNonNegative(count as real, d); }
  }

  /** One more event for a silent condition. */
  lemma SilenceOnward(policy: Policy, slot: Option<Active>, e: Event, last: Option<real>, d: real)
    requires policy.sustainIntervalS > 0.0 && d >= 0.0
    requires slot.Some? ==>
      && last.Some? && slot.value.missedScans < Patience(policy) && (e.Scan? ==> 0.0 <= e.now - last.value <= d)
      && 0.0 <= last.value - slot.value.lastPublishedAt < policy.sustainIntervalS + Times(slot.value.missedScans, d)
    ensures var after := React(policy, slot, e).slot;
      var now := if e.Scan? then Some(e.now) else last;
      after.Some? ==>
        && now.Some? && after.value.missedScans < Patience(policy)
        && 0.0 <= now.value - after.value.lastPublishedAt < policy.sustainIntervalS + Times(after.value.missedScans, d)
  {
    hide Times;
    OneMoreTime(if slot.Some? then slot.value.missedScans else 0, d);
  }

  /** As of the last scan, an active alert has been silent for less than the sustain interval plus `d`
      for every scan that has missed it since. */
  lemma {:induction false} SilenceIsBounded(policy: Policy, events: seq<Event>, d: real)
    requires policy.sustainIntervalS > 0.0 && d >= 0.0 && Paced(events, d)
    ensures var slot := KeyRun(policy, events).slot;
      slot.Some? ==>
        && LastScan(events).Some? && slot.value.missedScans < Patience(policy)
        && 0.0 <= LastScan(events).value - slot.value.lastPublishedAt
                  < policy.sustainIntervalS + Times(slot.value.missedScans, d)
  {
    hide React, Times, Patience;
    if events == [] { return; }
    var (before, e) := (events[..|events| - 1], events[|events| - 1]);
    PacedPrefix(events, d);
    SilenceIsBounded(policy, before, d);
    SilenceOnward(policy, KeyRun(policy, before).slot, e, LastScan(before), d);
  }

  /** Up to the next scan, an active alert is never silent for the sustain interval plus `d` for every
      scan the policy allows it to be missed. */
  lemma NeverSilentForLong(policy: Policy, events: seq<Event>, d: real, t: real)
    requires policy.sustainIntervalS > 0.0 && d >= 0.0 && Paced(events, d)
    requires KeyRun(policy, events).slot.Some? && LastScan(events).Some? && t <= LastScan(events).value + d
    ensures t - KeyRun(policy, events).slot.value.lastPublishedAt < policy.sustainIntervalS + Times(Patience(policy), d)
  {
    hide KeyRun, LastScan, Paced, Patience;
    SilenceIsBounded(policy, events, d);
    var slot := KeyRun(policy, events).slot.value;
    SilenceArithmetic(slot.missedScans, Patience(policy), d, t - LastScan(events).value,
                      LastScan(events).value - slot.lastPublishedAt, policy.sustainIntervalS);
  }

  lemma SilenceArithmetic(missed: nat, patience: nat, d: real, wait: real, age: real, sustain: real)
    requires missed < patience && d >= 0.0 && wait <= d && age < sustain + Times(missed, d)
    ensures wait + age < sustain + Times(patience, d)
  {
    var rest := (patience - missed - 1) as real;
    ProductIsNonNegative(rest, d);
    assert rest * d == patience as real * d - missed as real * d - d;
  }
}
