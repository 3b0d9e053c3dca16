/** The live alert store (stores.py) folding the published stream, and the proof that over any run it holds
    exactly what the alert manager (alerts.py) considers active, and until when. */
module AlertStore {
  import opened Prelude
  import opened Alerts
  import opened AlertHistory

  /** An entry lives until it is deleted or, by the wall clock, its time runs out. */
  datatype Stored = Stored(alert: Alert, expiresAt: real)

  function FoldOne(slot: Option<Stored>, a: Alert, wall: real, ttlS: real): Option<Stored> {
    if a.state == Cleared then None else Some(Stored(a, wall + ttlS))
  }

  /** Folding the alerts of one key, in order. */
  function FoldKey(slot: Option<Stored>, alerts: seq<Alert>, wall: real, ttlS: real): Option<Stored> {
    if alerts == [] then slot
    else FoldOne(FoldKey(slot, alerts[..|alerts| - 1], wall, ttlS), alerts[|alerts| - 1], wall, ttlS)
  }

  class LiveAlertStore {
    const ttlS: real
    var live: map<Id, Stored>
    var index: map<Id, real>

    /** Every stored alert is filed under its own key and listed in the index at its own update time. */
    ghost predicate Valid()
      reads this
    {
      && live.Keys == index.Keys
      && forall k :: k in live ==>
           live[k].alert.key == k && index[k] == live[k].alert.updatedAt && live[k].alert.state != Cleared
    }

    constructor (ttlS: real)
      ensures Valid() && this.ttlS == ttlS && live == map[]
    {
      this.ttlS, live, index := ttlS, map[], map[];
    }

    /** Fold a batch of state changes into the active set.  The store counts an entry's time to live on
        the wall clock, whatever time the alerts themselves carry. */
    method Apply(alerts: seq<Alert>, wall: real)
      requires Valid()
      modifies this
      ensures Valid()
      ensures forall k :: Lookup(live, k) == FoldKey(Lookup(old(live), k), ForKey(alerts, k), wall, ttlS)
    {
      hide FoldKey, ForKey;
      NothingFolds(old(live), wall, ttlS);
      for i := 0 to |alerts|
        invariant Valid()
        invariant forall k :: Lookup(live, k) == FoldKey(Lookup(old(live), k), ForKey(alerts[..i], k), wall, ttlS)
      {
        var alert := alerts[i];
        ghost var before := live;
        if alert.state == Cleared {
          live := live - {alert.key};
          index := index - {alert.key};
        } else {
          live := live[alert.key := Stored(alert, wall + ttlS)];
          index := index[alert.key := alert.updatedAt];
        }
        forall k ensures Lookup(live, k) == FoldKey(Lookup(old(live), k), ForKey(alerts[..i + 1], k), wall, ttlS) {
          FoldNext(Lookup(old(live), k), alerts, i, k, wall, ttlS);
          assert Lookup(live, k) == if k == alert.key then FoldOne(Lookup(before, k), alert, wall, ttlS)
            else Lookup(before, k);
        }
      }
      assert alerts[..|alerts|] == alerts;
    }
  }

  lemma NothingFolds(live: map<Id, Stored>, wall: real, ttlS: real)
    ensures forall k :: FoldKey(Lookup(live, k), ForKey([], k), wall, ttlS) == Lookup(live, k)
  {
  }

  lemma FoldNext(slot: Option<Stored>, alerts: seq<Alert>, i: nat, k: Id, wall: real, ttlS: real)
    requires i < |alerts|
    ensures var before := FoldKey(slot, ForKey(alerts[..i], k), wall, ttlS);
      FoldKey(slot, ForKey(alerts[..i + 1], k), wall, ttlS)
      == if alerts[i].key == k then FoldOne(before, alerts[i], wall, ttlS) else before
  {
    assert alerts[..i + 1] == alerts[..i] + [alerts[i]];
    ForKeyAppend(alerts[..i], alerts[i], k);
    var s := ForKey(alerts[..i], k);
    if alerts[i].key == k {
      assert (s + [alerts[i]])[..|s|] == s;
    } else {
      assert s + [] == s;
    }
    hide FoldOne;
  }

  // ----- Whole runs of manager and store -----

  datatype Call =
    | Reconcile(detections: seq<Detection>, now: real, wall: real, ids: Id -> nat)
    | Forget(gone: set<Id>, now: real, wall: real)

  /** What a call means for one key. */
  function EventOf(c: Call, k: Id): Event {
    match c
    case Reconcile(detections, now, wall, ids) => Scan(now, wall, Lookup(Current(detections), k), ids(k))
    case Forget(gone, now, wall) => Lost(now, wall, gone)
  }

  function Events(calls: seq<Call>, k: Id): seq<Event> {
    seq(|calls|, i requires 0 <= i < |calls| => EventOf(calls[i], k))
  }

  /** A state of manager and store: tracked conditions, and stored entries. */
  datatype Pair = Pair(active: map<Id, Active>, live: map<Id, Stored>)

  /** One manager call and the folding of what it published, as the methods' contracts describe them. */
  ghost predicate Step(policy: Policy, ttlS: real, s: Pair, c: Call, s': Pair, published: seq<Alert>) {
    forall k ::
      var o := React(policy, Lookup(s.active, k), EventOf(c, k));
      && Lookup(s'.active, k) == o.slot
      && ForKey(published, k) == AsSeq(o.out)
      && Lookup(s'.live, k) == FoldKey(Lookup(s.live, k), ForKey(published, k), c.wall, ttlS)
  }

  /** A run from nothing: `states` one longer than the calls, and what each call published. */
  ghost predicate IsRun(policy: Policy, ttlS: real, calls: seq<Call>, states: seq<Pair>, streams: seq<seq<Alert>>) {
    && |states| == |calls| + 1 && |streams| == |calls| && states[0] == Pair(map[], map[])
    && forall n :: 0 <= n < |calls| ==> Step(policy, ttlS, states[n], calls[n], states[n + 1], streams[n])
  }

  // ----- What the store holds of one key -----

  /** Event `i` published something for the key. */
  predicate PublishesAt(policy: Policy, events: seq<Event>, i: nat)
    requires i < |events|
  {
    React(policy, KeyRun(policy, events[..i]).slot, events[i]).out.Some?
  }

  /** Event `i` was the last to publish something for the key. */
  predicate LastPublication(policy: Policy, events: seq<Event>, i: nat) {
    i < |events| && PublishesAt(policy, events, i) && forall j :: i < j < |events| ==> !PublishesAt(policy, events, j)
  }

  lemma LastPublicationIsInherited(policy: Policy, events: seq<Event>, i: nat)
    requires |events| > 0 && LastPublication(policy, events[..|events| - 1], i)
    requires !PublishesAt(policy, events, |events| - 1)
    ensures LastPublication(policy, events, i)
  {
    hide KeyRun, React;
    var before := events[..|events| - 1];
    forall j | 0 <= j < |before| ensures PublishesAt(policy, events, j) == PublishesAt(policy, before, j) {
      assert before[..j] == events[..j];
    }
  }

  /** Event `i` last published the condition, and an entry written then expires at this time. */
  predicate WrittenAt(policy: Policy, ttlS: real, events: seq<Event>, i: nat, publishedAt: real, expiresAt: real) {
    LastPublication(policy, events, i) && events[i].now == publishedAt && expiresAt == events[i].wall + ttlS
  }

  /** The entry is the last alert published for the key, held until its time to live has passed since
      then by the wall clock; there is one exactly while the key is active. */
  ghost predicate Entered(policy: Policy, ttlS: real, events: seq<Event>, entry: Option<Stored>) {
    var h := KeyRun(policy, events);
    && (entry.Some? <==> h.slot.Some?)
    && (entry.Some? && h.slot.Some? ==>
          && h.outs != [] && entry.value.alert == h.outs[|h.outs| - 1] && IsOf(entry.value.alert, h.slot.value)
          && exists i: nat :: WrittenAt(policy, ttlS, events, i, h.slot.value.lastPublishedAt, entry.value.expiresAt))
  }

  /** The alert announces the tracked condition. */
  predicate IsOf(alert: Alert, a: Active) {
    && alert.alertId == a.alertId && alert.raisedAt == a.raisedAt && alert.state != Cleared
    && alert.updatedAt == a.lastPublishedAt
  }

  lemma FoldAtMostOne(slot: Option<Stored>, out: Option<Alert>, wall: real, ttlS: real)
    ensures FoldKey(slot, AsSeq(out), wall, ttlS) == if out.Some? then FoldOne(slot, out.value, wall, ttlS) else slot
  {
    if out.Some? { assert AsSeq(out)[..0] == []; }
  }

  /** What one event does to a condition and to what was last said of it. */
  lemma ReactionFacts(policy: Policy, slot: Option<Active>, e: Event)
    ensures var o := React(policy, slot, e);
      && (o.out.Some? ==> (o.slot.Some? <==> o.out.value.state != Cleared))
      && (o.out.Some? && o.slot.Some? ==> IsOf(o.out.value, o.slot.value) && o.slot.value.lastPublishedAt == e.now)
      && (o.out.None? ==> (o.slot.Some? <==> slot.Some?))
      && (o.out.None? && o.slot.Some? ==>
            o.slot.value.alertId == slot.value.alertId && o.slot.value.raisedAt == slot.value.raisedAt
            && o.slot.value.lastPublishedAt == slot.value.lastPublishedAt)
  {
  }

  /** One more event for the key. */
  lemma EnteredOnward(policy: Policy, ttlS: real, events: seq<Event>, entry: Option<Stored>)
    requires |events| > 0 && Entered(policy, ttlS, events[..|events| - 1], entry)
    ensures var o := React(policy, KeyRun(policy, events[..|events| - 1]).slot, events[|events| - 1]);
      Entered(policy, ttlS, events, FoldKey(entry, AsSeq(o.out), events[|events| - 1].wall, ttlS))
  {
    hide React, FoldKey, LastPublication;
    var (before, n) := (events[..|events| - 1], |events| - 1);
    var h := KeyRun(policy, before);
    var o := React(policy, h.slot, events[n]);
    ReactionFacts(policy, h.slot, events[n]);
    FoldAtMostOne(entry, o.out, events[n].wall, ttlS);
    if o.out.Some? {
      PublishesNow(policy, events);
      assert o.slot.Some? ==> WrittenAt(policy, ttlS, events, n, events[n].now, events[n].wall + ttlS);
    } else if o.slot.Some? {
      var (at, expiry) := (h.slot.value.lastPublishedAt, entry.value.expiresAt);
      var i: nat :| WrittenAt(policy, ttlS, before, i, at, expiry);
      StillLastPublication(policy, events, i);
      assert WrittenAt(policy, ttlS, events, i, at, expiry);
    }
  }

  lemma PublishesNow(policy: Policy, events: seq<Event>)
    requires |events| > 0
    ensures var n := |events| - 1;
      React(policy, KeyRun(policy, events[..n]).slot, events[n]).out.Some? <==> LastPublication(policy, events, n)
  {
  }

  lemma StillLastPublication(policy: Policy, events: seq<Event>, i: nat)
    requires |events| > 0 && LastPublication(policy, events[..|events| - 1], i)
    requires React(policy, KeyRun(policy, events[..|events| - 1]).slot, events[|events| - 1]).out.None?
    ensures LastPublication(policy, events, i) && i < |events| - 1 && events[i] == events[..|events| - 1][i]
  {
    LastPublicationIsInherited(policy, events, i);
  }

  lemma EventsGrow(calls: seq<Call>, n: nat, k: Id)
    requires n < |calls|
    ensures Events(calls[..n + 1], k) == Events(calls[..n], k) + [EventOf(calls[n], k)]
    ensures Events(calls[..n + 1], k)[..n] == Events(calls[..n], k)
  {
  }

  /** Each key of the run behaves as its own history says, and the store holds the last alert published
      for it while it is active. */
  lemma {:induction false} RunOfKey(policy: Policy, ttlS: real, calls: seq<Call>, states: seq<Pair>,
                                    streams: seq<seq<Alert>>, n: nat, k: Id)
    requires IsRun(policy, ttlS, calls, states, streams) && n <= |calls|
    ensures var events := Events(calls[..n], k);
      Lookup(states[n].active, k) == KeyRun(policy, events).slot
        && Entered(policy, ttlS, events, Lookup(states[n].live, k))
  {
    hide FoldKey, ForKey, React, PublishesAt, Entered;
    var events := Events(calls[..n], k);
    if n == 0 {
      NothingEntered(policy, ttlS);
      assert events == [];
    } else {
      RunOfKey(policy, ttlS, calls, states, streams, n - 1, k);
      assert Step(policy, ttlS, states[n - 1], calls[n - 1], states[n], streams[n - 1]);
      EventsGrow(calls, n - 1, k);
      EnteredOnward(policy, ttlS, events, Lookup(states[n - 1].live, k));
    }
  }

  lemma NothingEntered(policy: Policy, ttlS: real)
    ensures Entered(policy, ttlS, [], None)
  {
  }

  /** After every call the store holds exactly the active keys, each under the identifier and raise time
      of the active condition, with the time of its last publication, and expires the entry by the wall
      clock of that publication. */
  lemma StoreMirrorsManager(policy: Policy, ttlS: real, calls: seq<Call>, states: seq<Pair>, streams: seq<seq<Alert>>,
                            n: nat)
    requires IsRun(policy, ttlS, calls, states, streams) && n <= |calls|
    ensures states[n].live.Keys == states[n].active.Keys
    ensures forall k :: k in states[n].active ==>
      var (a, e) := (states[n].active[k], states[n].live[k]);
      && IsOf(e.alert, a)
      && exists i: nat :: WrittenAt(policy, ttlS, Events(calls[..n], k), i, a.lastPublishedAt, e.expiresAt)
  {
    hide KeyRun, WrittenAt, Step;
    forall k
      ensures k in states[n].live <==> k in states[n].active
      ensures k in states[n].active ==>
        var (a, e) := (states[n].active[k], states[n].live[k]);
        && IsOf(e.alert, a)
        && exists i: nat :: WrittenAt(policy, ttlS, Events(calls[..n], k), i, a.lastPublishedAt, e.expiresAt)
    {
      RunOfKey(policy, ttlS, calls, states, streams, n, k);
    }
  }
}
