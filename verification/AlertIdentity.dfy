/** Which identifier an alert carries (alerts.py, stores.py): that given by the scan that raised it, so with
    identifiers that are never given twice two alerts share one exactly when they belong to the same key and the
    same cycle; and exactly what is published when. */
module AlertIdentity {
  import opened Prelude
  import opened Alerts
  import opened AlertHistory
  import opened AlertStore

  // ----- One key -----

  /** Event `n` raised the condition: a scan found it when it was not tracked. */
  predicate RaisesAt(policy: Policy, events: seq<Event>, n: nat)
    requires n < |events|
  {
    Detects(events[n]) && KeyRun(policy, events[..n]).slot.None?
  }

  /** The event that last raised the condition. */
  function RaisedBy(policy: Policy, events: seq<Event>): (r: int)
    ensures -1 <= r < |events| && (r >= 0 ==> events[r].Scan?)
  {
    if events == [] then -1
    else if RaisesAt(policy, events, |events| - 1) then |events| - 1
    else RaisedBy(policy, events[..|events| - 1])
  }

  /** What event `n` published for the key, if anything. */
  function OutAt(policy: Policy, events: seq<Event>, n: nat): Option<Alert>
    requires n < |events|
  {
    React(policy, KeyRun(policy, events[..n]).slot, events[n]).out
  }

  /** What one event does to the identity of the condition. */
  lemma IdentityStep(policy: Policy, slot: Option<Active>, e: Event)
    ensures var (raised, o) := (Detects(e) && slot.None?, React(policy, slot, e));
      && (raised ==> o.slot.Some? && o.out.Some? && o.slot.value.alertId == e.id && o.slot.value.raisedAt == e.now)
      && (o.out.Some? ==>
            && (o.out.value.state == New <==> raised) && (o.out.value.state == Cleared <==> o.slot.None?)
            && o.out.value.alertId == (if raised then e.id else if slot.Some? then slot.value.alertId else 0)
            && o.out.value.raisedAt == (if raised then e.now else if slot.Some? then slot.value.raisedAt else 0.0))
      && (!raised && slot.None? ==> o.slot.None? && o.out.None?)
      && (slot.Some? && o.slot.None? ==> o.out.Some?)
      && (!raised && o.slot.Some? ==>
            o.slot.value.alertId == slot.value.alertId && o.slot.value.raisedAt == slot.value.raisedAt)
  {
  }

  /** The tracked condition bears the identifier and time of the scan that raised it. */
  lemma {:induction false} TrackedBearsItsScan(policy: Policy, events: seq<Event>)
    ensures var (slot, r) := (KeyRun(policy, events).slot, RaisedBy(policy, events));
      slot.Some? ==> r >= 0 && slot.value.alertId == events[r].id && slot.value.raisedAt == events[r].now
  {
    hide React, Detects;
    if events != [] {
      var n := |events| - 1;
      TrackedBearsItsScan(policy, events[..n]);
      IdentityStep(policy, KeyRun(policy, events[..n]).slot, events[n]);
    }
  }

  /** So does whatever is published for it, and it is published as new by that scan alone. */
  lemma PublishedBearsItsScan(policy: Policy, events: seq<Event>)
    requires events != [] && OutAt(policy, events, |events| - 1).Some?
    ensures var (out, r, n) := (OutAt(policy, events, |events| - 1).value, RaisedBy(policy, events), |events| - 1);
      && r >= 0 && out.alertId == events[r].id && out.raisedAt == events[r].now
      && (out.state == New <==> r == n) && (out.state == Cleared <==> KeyRun(policy, events).slot.None?)
  {
    hide React, Detects;
    var n := |events| - 1;
    TrackedBearsItsScan(policy, events[..n]);
    IdentityStep(policy, KeyRun(policy, events[..n]).slot, events[n]);
  }

  /** No event from `m` on cleared the key's alert. */
  predicate NoneClears(policy: Policy, events: seq<Event>, m: nat) {
    forall i :: m <= i < |events| && OutAt(policy, events, i).Some? ==> OutAt(policy, events, i).value.state != Cleared
  }

  lemma OutInPrefix(policy: Policy, events: seq<Event>, n: nat, i: nat)
    requires i < n <= |events|
    ensures OutAt(policy, events[..n], i) == OutAt(policy, events, i)
  {
    assert events[..n][..i] == events[..i];
  }

  lemma NoneClearsInPrefix(policy: Policy, events: seq<Event>, m: nat)
    requires m < |events|
    ensures var n := |events| - 1;
      NoneClears(policy, events, m) <==>
        NoneClears(policy, events[..n], m)
        && (OutAt(policy, events, n).Some? ==> OutAt(policy, events, n).value.state != Cleared)
  {
    hide OutAt;
    var n := |events| - 1;
    forall i | 0 <= i < n ensures OutAt(policy, events[..n], i) == OutAt(policy, events, i) {
      OutInPrefix(policy, events, n, i);
    }
  }

  /** After event `m` published for the key: while nothing has cleared it, the raising scan is the one it was at
      `m`; and once something has, a tracked condition has been raised later than `m`. */
  lemma {:induction false} RaisingStands(policy: Policy, events: seq<Event>, m: nat)
    requires m < |events| && OutAt(policy, events, m).Some?
    ensures NoneClears(policy, events, m) ==>
      KeyRun(policy, events).slot.Some? && RaisedBy(policy, events) == RaisedBy(policy, events[..m + 1])
    ensures !NoneClears(policy, events, m) && KeyRun(policy, events).slot.Some? ==> RaisedBy(policy, events) > m
  {
    hide React, Detects, NoneClears, OutAt;
    var n := |events| - 1;
    OutIs(policy, events, n);
    NoneClearsInPrefix(policy, events, m);
    IdentityStep(policy, KeyRun(policy, events[..n]).slot, events[n]);
    if m < n {
      OutInPrefix(policy, events, n, m);
      assert events[..n][..m + 1] == events[..m + 1];
      RaisingStands(policy, events[..n], m);
    } else {
      assert events[..m + 1] == events;
      NothingSince(policy, events[..n]);
    }
  }

  lemma OutIs(policy: Policy, events: seq<Event>, n: nat)
    requires n < |events|
    ensures OutAt(policy, events, n) == React(policy, KeyRun(policy, events[..n]).slot, events[n]).out
  {
  }

  lemma NothingSince(policy: Policy, events: seq<Event>)
    ensures NoneClears(policy, events, |events|)
  {
  }

  /** Two publications of one key were raised by the same scan exactly when nothing cleared the key between
      them. */
  lemma SameRaisingExactlyWhenUncleared(policy: Policy, events: seq<Event>, m: nat, n: nat)
    requires m <= n < |events| && OutAt(policy, events, m).Some? && OutAt(policy, events, n).Some?
    ensures RaisedBy(policy, events[..m + 1]) == RaisedBy(policy, events[..n + 1])
       <==> NoneClears(policy, events[..n], m)
  {
    hide React, Detects, NoneClears, OutAt;
    if m < n {
      OutInPrefix(policy, events, n, m);
      assert events[..n][..m + 1] == events[..m + 1] && events[..n + 1][..n] == events[..n];
      RaisingStands(policy, events[..n], m);
      OutIs(policy, events, n);
      IdentityStep(policy, KeyRun(policy, events[..n]).slot, events[n]);
    } else {
      EmptyStretch(policy, events[..n]);
    }
  }

  lemma EmptyStretch(policy: Policy, events: seq<Event>)
    ensures NoneClears(policy, events, |events|)
  {
  }

  /** The same from a time at which the condition was tracked. */
  lemma {:induction false} TrackingStands(policy: Policy, events: seq<Event>, m: nat)
    requires m <= |events| && KeyRun(policy, events[..m]).slot.Some?
    ensures NoneClears(policy, events, m) ==>
      KeyRun(policy, events).slot.Some? && RaisedBy(policy, events) == RaisedBy(policy, events[..m])
    ensures !NoneClears(policy, events, m) && KeyRun(policy, events).slot.Some? ==> RaisedBy(policy, events) >= m
  {
    hide React, Detects, NoneClears, OutAt;
    if m == |events| {
      assert events[..m] == events;
      EmptyStretch(policy, events);
    } else {
      var n := |events| - 1;
      assert events[..n][..m] == events[..m];
      TrackingStands(policy, events[..n], m);
      NoneClearsInPrefix(policy, events, m);
      OutIs(policy, events, n);
      IdentityStep(policy, KeyRun(policy, events[..n]).slot, events[n]);
    }
  }

  // ----- Exactly what is published when -----

  lemma PublicationOnward(policy: Policy, events: seq<Event>, i: nat)
    requires |events| > 0
    ensures var n := |events| - 1;
      && (OutAt(policy, events, n).Some? ==> LastPublication(policy, events, n))
      && (OutAt(policy, events, n).None? && LastPublication(policy, events[..n], i) ==>
            LastPublication(policy, events, i) && events[..n][i] == events[i])
  {
    hide React, KeyRun;
    var n := |events| - 1;
    if OutAt(policy, events, n).None? && LastPublication(policy, events[..n], i) {
      LastPublicationIsInherited(policy, events, i);
    }
  }

  /** What is tracked was last published at the time it says. */
  lemma {:induction false} LastPublishedThen(policy: Policy, events: seq<Event>) returns (i: nat)
    requires KeyRun(policy, events).slot.Some?
    ensures LastPublication(policy, events, i) && events[i].now == KeyRun(policy, events).slot.value.lastPublishedAt
  {
    hide React, LastPublication, OutAt;
    var n := |events| - 1;
    var slot := KeyRun(policy, events[..n]).slot;
    OutIs(policy, events, n);
    ReactionFacts(policy, slot, events[n]);
    if OutAt(policy, events, n).Some? {
      i := n;
      PublicationOnward(policy, events, i);
    } else {
      i := LastPublishedThen(policy, events[..n]);
      PublicationOnward(policy, events, i);
    }
  }

  lemma StepPublishes(policy: Policy, slot: Option<Active>, e: Event)
    ensures var o := React(policy, slot, e);
      && (o.out.Some? && o.out.value.state == New <==> Detects(e) && slot.None?)
      && (o.out.Some? && o.out.value.state == Sustained <==>
          Detects(e) && slot.Some? && e.now - slot.value.lastPublishedAt >= policy.sustainIntervalS)
      && (o.out.Some? && o.out.value.state == Cleared <==> slot.Some? && o.slot.None?)
  {
  }

  /** Some scan still keeps the key active. */
  ghost predicate Supported(policy: Policy, events: seq<Event>) {
    exists j: nat :: Supports(policy, events, j)
  }

  /** The last publication for the key is at least the sustain interval old. */
  ghost predicate DueAgain(policy: Policy, events: seq<Event>, now: real) {
    exists i: nat :: LastPublication(policy, events, i) && now - events[i].now >= policy.sustainIntervalS
  }

  /** An event publishes a new alert exactly when it detects a condition nothing supported, repeats an alert
      exactly when it detects one supported and long enough unpublished, and clears one exactly when it ends the
      support; otherwise it publishes nothing. */
  lemma PublishedExactlyWhen(policy: Policy, events: seq<Event>)
    requires |events| > 0
    ensures var (before, e, out) := (events[..|events| - 1], events[|events| - 1],
                                     OutAt(policy, events, |events| - 1));
      && (out.Some? && out.value.state == New <==> Detects(e) && !Supported(policy, before))
      && (out.Some? && out.value.state == Sustained <==>
          Detects(e) && Supported(policy, before) && DueAgain(policy, before, e.now))
      && (out.Some? && out.value.state == Cleared <==> Supported(policy, before) && !Supported(policy, events))
  {
    hide React, Detects, Supports, LastPublication, OutAt;
    var (n, before) := (|events| - 1, events[..|events| - 1]);
    OutIs(policy, events, n);
    StepPublishes(policy, KeyRun(policy, before).slot, events[n]);
    ActiveExactlyWhenRecentlyDetected(policy, before);
    ActiveExactlyWhenRecentlyDetected(policy, events);
    if KeyRun(policy, before).slot.Some? {
      var i := LastPublishedThen(policy, before);
      forall j: nat | LastPublication(policy, before, j) ensures j == i { OnlyOneIsLast(policy, before, i, j); }
    }
  }

  lemma OnlyOneIsLast(policy: Policy, events: seq<Event>, i: nat, j: nat)
    requires LastPublication(policy, events, i) && LastPublication(policy, events, j)
    ensures i == j
  {
  }

  // ----- Whole runs of manager and store -----

  /** What call `n` published for a key is what its event did. */
  lemma StreamIsOut(policy: Policy, ttlS: real, calls: seq<Call>, states: seq<Pair>, streams: seq<seq<Alert>>, n: nat,
                    k: Id)
    requires IsRun(policy, ttlS, calls, states, streams) && n < |calls|
    ensures ForKey(streams[n], k) == AsSeq(OutAt(policy, Events(calls, k), n))
    ensures forall a :: a in streams[n] && a.key == k <==> OutAt(policy, Events(calls, k), n) == Some(a)
  {
    hide KeyRun, React, FoldKey, Entered, ForKey;
    var events := Events(calls, k);
    assert Step(policy, ttlS, states[n], calls[n], states[n + 1], streams[n]);
    RunOfKey(policy, ttlS, calls, states, streams, n, k);
    EventsOfPrefix(calls, n, k);
    forall a ensures a in streams[n] && a.key == k <==> OutAt(policy, events, n) == Some(a) {
      if a in streams[n] && a.key == k { AmongForKey(streams[n], a); }
      if OutAt(policy, events, n) == Some(a) { assert ForKey(streams[n], k)[0] == a; }
    }
  }

  lemma EventsOfPrefix(calls: seq<Call>, n: nat, k: Id)
    requires n <= |calls|
    ensures Events(calls, k)[..n] == Events(calls[..n], k)
  {
  }

  /** An alert published as new carries the identifier its own scan supplied for its key, and its time. */
  lemma NewAlertBearsSuppliedId(policy: Policy, ttlS: real, calls: seq<Call>, states: seq<Pair>,
                                streams: seq<seq<Alert>>, n: nat, a: Alert)
    requires IsRun(policy, ttlS, calls, states, streams) && n < |calls| && a in streams[n] && a.state == New
    ensures calls[n].Reconcile? && a.alertId == calls[n].ids(a.key) && a.raisedAt == calls[n].now
  {
    hide OutAt, IsRun, KeyRun;
    var events := Events(calls, a.key);
    StreamIsOut(policy, ttlS, calls, states, streams, n, a.key);
    PublicationBears(policy, events, n);
  }

  lemma PublicationBears(policy: Policy, events: seq<Event>, n: nat)
    requires n < |events| && OutAt(policy, events, n).Some?
    ensures var (out, r) := (OutAt(policy, events, n).value, RaisedBy(policy, events[..n + 1]));
      && 0 <= r <= n && events[r].Scan? && out.alertId == events[r].id && out.raisedAt == events[r].now
      && (out.state == New <==> r == n)
  {
    hide OutAt, KeyRun;
    assert events[..n + 1][n] == events[n];
    OutInPrefix(policy, events, n + 1, n);
    PublishedBearsItsScan(policy, events[..n + 1]);
  }

  /** No identifier is supplied twice, neither by two scans nor for two keys. */
  ghost predicate NeverRepeats(calls: seq<Call>) {
    forall m, n, k, l ::
      0 <= m < |calls| && 0 <= n < |calls| && calls[m].Reconcile? && calls[n].Reconcile?
      && calls[m].ids(k) == calls[n].ids(l)
      ==> m == n && k == l
  }

  /** From call `m` on and before call `n` nothing was published as cleared for the key: what is published at the
      two belongs to one cycle. */
  predicate SameCycle(streams: seq<seq<Alert>>, k: Id, m: nat, n: nat)
    requires n <= |streams|
  {
    forall i, j :: m <= i < n && 0 <= j < |streams[i]| && streams[i][j].key == k ==> streams[i][j].state != Cleared
  }

  lemma CycleIsNoneClears(policy: Policy, ttlS: real, calls: seq<Call>, states: seq<Pair>, streams: seq<seq<Alert>>,
                          k: Id, m: nat, n: nat)
    requires IsRun(policy, ttlS, calls, states, streams) && n <= |calls|
    ensures SameCycle(streams, k, m, n) <==> NoneClears(policy, Events(calls, k)[..n], m)
  {
    hide OutAt, Step;
    var events := Events(calls, k);
    forall i | m <= i < n
      ensures OutAt(policy, events[..n], i) == OutAt(policy, events, i)
      ensures forall a :: a in streams[i] && a.key == k <==> OutAt(policy, events, i) == Some(a)
    {
      OutInPrefix(policy, events, n, i);
      StreamIsOut(policy, ttlS, calls, states, streams, i, k);
    }
    if SameCycle(streams, k, m, n) {
      forall i | m <= i < n && OutAt(policy, events, i).Some?
        ensures OutAt(policy, events, i).value.state != Cleared
      {
        var a := OutAt(policy, events, i).value;
        assert a in streams[i] && a.key == k;
      }
    } else {
      var i, j :| m <= i < n && 0 <= j < |streams[i]| && streams[i][j].key == k && streams[i][j].state == Cleared;
      assert streams[i][j] in streams[i];
    }
  }

  /** If no identifier is supplied twice, two published alerts share theirs exactly when they are of the same key
      and the same cycle. */
  lemma SharedIdExactlyInOneCycle(policy: Policy, ttlS: real, calls: seq<Call>, states: seq<Pair>,
                                  streams: seq<seq<Alert>>, m: nat, a: Alert, n: nat, b: Alert)
    requires IsRun(policy, ttlS, calls, states, streams) && NeverRepeats(calls)
    requires m <= n < |calls| && a in streams[m] && b in streams[n]
    ensures a.alertId == b.alertId <==> a.key == b.key && SameCycle(streams, a.key, m, n)
  {
    hide OutAt, Step, KeyRun, NoneClears, SameCycle;
    var (es, fs) := (Events(calls, a.key), Events(calls, b.key));
    StreamIsOut(policy, ttlS, calls, states, streams, m, a.key);
    StreamIsOut(policy, ttlS, calls, states, streams, n, b.key);
    PublicationBears(policy, es, m);
    PublicationBears(policy, fs, n);
    var (r, q) := (RaisedBy(policy, es[..m + 1]), RaisedBy(policy, fs[..n + 1]));
    assert calls[r].Reconcile? && calls[q].Reconcile?;
    assert a.alertId == calls[r].ids(a.key) && b.alertId == calls[q].ids(b.key);
    if a.key == b.key {
      SameRaisingExactlyWhenUncleared(policy, es, m, n);
      CycleIsNoneClears(policy, ttlS, calls, states, streams, a.key, m, n);
    }
  }

  /** A stored entry was raised by this scan: the scan published it as new under the identifier it supplied, and
      nothing has cleared the key since. */
  predicate RaisedIn(calls: seq<Call>, streams: seq<seq<Alert>>, n: nat, k: Id, alert: Alert, r: nat)
    requires n <= |calls| && |streams| == |calls|
  {
    && r < n && calls[r].Reconcile? && alert.alertId == calls[r].ids(k) && alert.raisedAt == calls[r].now
    && (exists j :: 0 <= j < |streams[r]| && streams[r][j].key == k && streams[r][j].state == New
                    && streams[r][j].alertId == alert.alertId)
    && SameCycle(streams, k, r, n)
  }

  lemma EntryOfKey(policy: Policy, ttlS: real, calls: seq<Call>, states: seq<Pair>, streams: seq<seq<Alert>>, n: nat,
                   k: Id)
    requires IsRun(policy, ttlS, calls, states, streams) && n <= |calls| && k in states[n].live
    ensures var events := Events(calls, k)[..n];
      && KeyRun(policy, events).slot.Some?
      && states[n].live[k].alert.alertId == KeyRun(policy, events).slot.value.alertId
      && states[n].live[k].alert.raisedAt == KeyRun(policy, events).slot.value.raisedAt
  {
    hide KeyRun, WrittenAt, IsRun;
    RunOfKey(policy, ttlS, calls, states, streams, n, k);
    EventsOfPrefix(calls, n, k);
  }

  /** The scan that raised a tracked condition published it as new, and nothing has been cleared since. */
  lemma {:induction false} RaisingPublishes(policy: Policy, events: seq<Event>)
    requires KeyRun(policy, events).slot.Some?
    ensures var r := RaisedBy(policy, events);
      && r >= 0 && OutAt(policy, events, r).Some? && OutAt(policy, events, r).value.state == New
      && OutAt(policy, events, r).value.alertId == events[r].id && NoneClears(policy, events, r)
  {
    hide React, Detects, NoneClears, OutAt;
    var n := |events| - 1;
    OutIs(policy, events, n);
    IdentityStep(policy, KeyRun(policy, events[..n]).slot, events[n]);
    EmptyStretch(policy, events[..n]);
    if RaisesAt(policy, events, n) {
      NoneClearsInPrefix(policy, events, n);
    } else {
      RaisingPublishes(policy, events[..n]);
      var r := RaisedBy(policy, events);
      OutInPrefix(policy, events, n, r);
      NoneClearsInPrefix(policy, events, r);
    }
  }

  /** Every entry of the store bears the identifier and the time of the scan that raised its cycle. */
  lemma EntryBearsItsScan(policy: Policy, ttlS: real, calls: seq<Call>, states: seq<Pair>, streams: seq<seq<Alert>>,
                          n: nat, k: Id) returns (r: nat)
    requires IsRun(policy, ttlS, calls, states, streams) && n <= |calls| && k in states[n].live
    ensures RaisedIn(calls, streams, n, k, states[n].live[k].alert, r)
  {
    hide Step, KeyRun, OutAt, NoneClears, SameCycle;
    var events := Events(calls, k)[..n];
    EntryOfKey(policy, ttlS, calls, states, streams, n, k);
    TrackedBearsItsScan(policy, events);
    RaisingPublishes(policy, events);
    r := RaisedBy(policy, events);
    OutInPrefix(policy, Events(calls, k), n, r);
    StreamIsOut(policy, ttlS, calls, states, streams, r, k);
    CycleIsNoneClears(policy, ttlS, calls, states, streams, k, r, n);
    var a := OutAt(policy, Events(calls, k), r).value;
    assert a in streams[r] && a.key == k;
  }

  /** Two entries, of one state of the store or of two, share an identifier exactly when they are of the same key
      and nothing cleared it between the two. */
  lemma EntriesShareIdExactlyInOneCycle(policy: Policy, ttlS: real, calls: seq<Call>, states: seq<Pair>,
                                        streams: seq<seq<Alert>>, m: nat, k: Id, n: nat, l: Id)
    requires IsRun(policy, ttlS, calls, states, streams) && NeverRepeats(calls)
    requires m <= n <= |calls| && k in states[m].live && l in states[n].live
    ensures states[m].live[k].alert.alertId == states[n].live[l].alert.alertId
       <==> k == l && SameCycle(streams, k, m, n)
  {
    hide Step, KeyRun, OutAt, NoneClears, SameCycle;
    var (es, fs) := (Events(calls, k), Events(calls, l));
    EntryOfKey(policy, ttlS, calls, states, streams, m, k);
    EntryOfKey(policy, ttlS, calls, states, streams, n, l);
    TrackedBearsItsScan(policy, es[..m]);
    TrackedBearsItsScan(policy, fs[..n]);
    var (r, q) := (RaisedBy(policy, es[..m]), RaisedBy(policy, fs[..n]));
    assert calls[r].Reconcile? && calls[q].Reconcile?;
    if k == l {
      assert es[..n][..m] == es[..m];
      TrackingStands(policy, es[..n], m);
      CycleIsNoneClears(policy, ttlS, calls, states, streams, k, m, n);
    }
  }
}
