/** When a stored alert lapses while its condition is still active (alerts.py, conformance/runner.py,
    stores.py).  The scanner reasons about the later of the wall clock and the newest time in the data,
    and heartbeats on that clock; the store counts an entry's time to live on the wall clock.  While the
    data lead, the scanner's clock stands still and so does the heartbeat. */
module AlertExpiry {
  import opened Prelude
  import opened Alerts
  import opened AlertHistory
  import opened AlertStore

  // ----- One key -----

  /** The wall time of the last scan. */
  function LastWall(events: seq<Event>): Option<real> {
    if events == [] then None
    else if events[|events| - 1].Scan? then Some(events[|events| - 1].wall)
    else LastWall(events[..|events| - 1])
  }

  /** By the wall clock, each scan comes at most `d` after the scan before it. */
  predicate PacedByWall(events: seq<Event>, d: real) {
    forall n :: 0 <= n < |events| && events[n].Scan? && LastWall(events[..n]).Some? ==>
      events[n].wall - LastWall(events[..n]).value <= d
  }

  /** The scanner's clock is never behind the wall clock. */
  predicate NeverBehind(events: seq<Event>) {
    forall n :: 0 <= n < |events| ==> events[n].wall <= events[n].now
  }

  lemma PacedBefore(events: seq<Event>, d: real)
    requires |events| > 0 && PacedByWall(events, d)
    ensures PacedByWall(events[..|events| - 1], d)
  {
    var before := events[..|events| - 1];
    forall n | 0 <= n < |before| && before[n].Scan? && LastWall(before[..n]).Some?
      ensures before[n].wall - LastWall(before[..n]).value <= d
    {
      assert before[..n] == events[..n];
    }
  }

  /** How far the scanner's clock was ahead when an event happened. */
  function Lead(e: Event): real {
    e.now - e.wall
  }

  lemma StepOfSilence(policy: Policy, slot: Option<Active>, e: Event, written: Event, last: real, d: real)
    requires React(policy, slot, e).out.None? && React(policy, slot, e).slot.Some? && slot.Some?
    requires slot.value.lastPublishedAt == written.now && e.wall <= e.now
    requires last - written.wall < policy.sustainIntervalS + Lead(written) + Times(slot.value.missedScans, d)
    requires e.Scan? ==> e.wall - last <= d
    ensures var next := if e.Scan? then e.wall else last;
      var a := React(policy, slot, e).slot.value;
      a.lastPublishedAt == written.now
      && next - written.wall < policy.sustainIntervalS + Lead(written) + Times(a.missedScans, d)
  {
    hide Times;
    OneMoreTime(slot.value.missedScans, d);
  }

  /** As of the last scan, the wall clock has run for less than the sustain interval, the lead at the last
      publication, and `d` for every scan that has missed the condition since. */
  lemma {:induction false} WallSilenceIsBounded(policy: Policy, events: seq<Event>, d: real, i: nat)
    requires policy.sustainIntervalS > 0.0 && d >= 0.0 && PacedByWall(events, d) && NeverBehind(events)
    requires LastPublication(policy, events, i) && KeyRun(policy, events).slot.Some?
    ensures var a := KeyRun(policy, events).slot.value;
      && i < |events| && a.lastPublishedAt == events[i].now && LastWall(events).Some?
         && a.missedScans < Patience(policy)
      && LastWall(events).value - events[i].wall
         < policy.sustainIntervalS + Lead(events[i]) + Times(a.missedScans, d)
  {
    hide React, Lead, Times;
    var n := |events| - 1;
    var (before, e) := (events[..n], events[n]);
    var slot := KeyRun(policy, before).slot;
    PublishesNow(policy, events);
    ReactionFacts(policy, slot, e);
    MissesAreFew(policy, slot, e);
    if i == n {
      OnlyScansRaise(policy, slot, e, d);
    } else {
      PacedBefore(events, d);
      QuietSince(policy, events, i);
      WallSilenceIsBounded(policy, before, d, i);
      assert events[i] == before[i];
      StepOfSilence(policy, slot, e, events[i], LastWall(before).value, d);
    }
  }

  lemma OnlyScansRaise(policy: Policy, slot: Option<Active>, e: Event, d: real)
    requires React(policy, slot, e).out.Some? && React(policy, slot, e).slot.Some?
    ensures e.Scan? && React(policy, slot, e).slot.value.missedScans == 0 && Times(0, d) == 0.0
    ensures e.wall <= e.now ==> Lead(e) >= 0.0
  {
  }

  lemma MissesAreFew(policy: Policy, slot: Option<Active>, e: Event)
    ensures var o := React(policy, slot, e);
      o.slot.Some? && (slot.Some? ==> slot.value.missedScans < Patience(policy)) ==>
        o.slot.value.missedScans < Patience(policy)
  {
  }

  lemma QuietSince(policy: Policy, events: seq<Event>, i: nat)
    requires |events| > 0 && LastPublication(policy, events, i) && i < |events| - 1
    ensures var (before, n) := (events[..|events| - 1], |events| - 1);
      LastPublication(policy, before, i) && React(policy, KeyRun(policy, before).slot, events[n]).out.None?
  {
    hide KeyRun, React;
    var before := events[..|events| - 1];
    forall j | 0 <= j < |before| ensures PublishesAt(policy, events, j) == PublishesAt(policy, before, j) {
      assert before[..j] == events[..j];
    }
    assert !PublishesAt(policy, events, |events| - 1);
  }

  // ----- Runs of manager and store -----

  /** A run and the newest data time the scanner had seen at each call. */
  datatype Course = Course(calls: seq<Call>, states: seq<Pair>, streams: seq<seq<Alert>>, latest: seq<real>)

  /** The scanner's clock is the later of the wall clock and the newest data time; neither runs
      backwards, the data never lead by more than `lead`, and scans are at most `d` apart. */
  ghost predicate Timed(c: Course, k: Id, d: real, lead: real) {
    && |c.latest| == |c.calls|
    && (forall i :: 0 <= i < |c.calls| ==>
          c.calls[i].now == Max(c.calls[i].wall, c.latest[i]) && c.calls[i].now - c.calls[i].wall <= lead)
    && (forall i, j :: 0 <= i <= j < |c.calls| ==> c.latest[i] <= c.latest[j] && c.calls[i].wall <= c.calls[j].wall)
    && PacedByWall(Events(c.calls, k), d)
  }

  /** The store has let the entry of an active key go, at a time before the next scan is due. */
  ghost predicate Lapses(policy: Policy, ttlS: real, d: real, lead: real, c: Course, k: Id, t: real) {
    && IsRun(policy, ttlS, c.calls, c.states, c.streams) && Timed(c, k, d, lead)
    && k in c.states[|c.calls|].active
    && (k in c.states[|c.calls|].live ==> c.states[|c.calls|].live[k].expiresAt <= t)
    && var last := LastWall(Events(c.calls, k));
    last.Some? && last.value <= t <= last.value + d
  }

  lemma SilenceSum(missed: nat, patience: nat, d: real, wait: real, silence: real, sustain: real, lead: real)
    requires missed < patience && d >= 0.0 && wait <= d && silence < sustain + lead + Times(missed, d)
    ensures wait + silence < sustain + lead + Times(patience, d)
  {
    SilenceArithmetic(missed, patience, d, wait, silence - lead, sustain);
  }

  /** If by the wall clock scans come at most `d` apart, and the time to live covers the sustain interval,
      `d` for every scan the policy lets an alert miss, and the lead of the scanner's clock when the alert
      was last published, then the entry of an active key does not expire before the next scan is due. */
  lemma NoActiveAlertExpires(policy: Policy, ttlS: real, calls: seq<Call>, states: seq<Pair>, streams: seq<seq<Alert>>,
                             n: nat, d: real, t: real, k: Id)
    requires IsRun(policy, ttlS, calls, states, streams) && n <= |calls| && k in states[n].active
    requires policy.sustainIntervalS > 0.0 && d >= 0.0
    requires var events := Events(calls[..n], k);
      && PacedByWall(events, d) && NeverBehind(events)
      && (LastWall(events).Some? ==> t <= LastWall(events).value + d)
      && forall i: nat :: LastPublication(policy, events, i) ==>
           policy.sustainIntervalS + Times(Patience(policy), d) + Lead(events[i]) <= ttlS
    ensures k in states[n].live && t < states[n].live[k].expiresAt
  {
    hide IsRun, KeyRun, Events, Patience, Times, PacedByWall, NeverBehind, LastWall, LastPublication, Lead;
    var events := Events(calls[..n], k);
    assert |states| == |calls| + 1 by { RunLength(policy, ttlS, calls, states, streams); }
    RunOfKey(policy, ttlS, calls, states, streams, n, k);
    var (a, e) := (states[n].active[k], states[n].live[k]);
    var i: nat :| WrittenAt(policy, ttlS, events, i, a.lastPublishedAt, e.expiresAt);
    WallSilenceIsBounded(policy, events, d, i);
    var last := LastWall(events).value;
    SilenceSum(a.missedScans, Patience(policy), d, t - last, last - events[i].wall, policy.sustainIntervalS,
               Lead(events[i]));
  }

  lemma RunLength(policy: Policy, ttlS: real, calls: seq<Call>, states: seq<Pair>, streams: seq<seq<Alert>>)
    requires IsRun(policy, ttlS, calls, states, streams)
    ensures |states| == |calls| + 1
  {
  }

  // ----- The run in which an entry lapses -----

  /** A condition detected for a while and then missed as often as the policy allows, while the data stand
      `lead` ahead of the wall clock at which the first scan runs.  `until` is when it is last detected,
      at scan `m`. */
  datatype Quiet = Quiet(policy: Policy, ttlS: real, d: real, lead: real, seen: Detection, until: real, m: nat)
  {
    ghost predicate Valid() {
      && policy.sustainIntervalS > 0.0 && d > 0.0 && lead >= 0.0
      && 0.0 <= until < lead + policy.sustainIntervalS && until < m as real * d
    }

    function Wall(i: nat): real {
      if i <= m then Min(i as real * d, until) else until + (i - m) as real * d
    }

    function CallAt(i: nat): Call {
      Reconcile(if i <= m then [seen] else [], Max(Wall(i), lead), Wall(i), k => 0)
    }

    function Raised(missed: nat): Active {
      Active(0, lead, lead, seen, missed)
    }

    function First(): Alert {
      Render(Raised(0), seen, New, lead)
    }

    /** Manager and store before call `i`. */
    function StateAt(i: nat): Pair {
      if i == 0 then Pair(map[], map[])
      else Pair(map[seen.key := Raised(if i <= m + 1 then 0 else i - m - 1)], map[seen.key := Stored(First(), ttlS)])
    }

    function Length(): nat {
      m + Patience(policy)
    }

    function AsCourse(): (c: Course)
      ensures |c.calls| == |c.streams| == |c.latest| == Length() && |c.states| == Length() + 1
      ensures forall i :: 0 <= i < Length() ==> c.calls[i] == CallAt(i) && c.latest[i] == lead
                                                && c.streams[i] == if i == 0 then [First()] else []
      ensures forall i :: 0 <= i <= Length() ==> c.states[i] == StateAt(i)
    {
      Course(seq(Length(), i requires i >= 0 => CallAt(i)), seq(Length() + 1, i requires i >= 0 => StateAt(i)),
             seq(Length(), i requires i >= 0 => if i == 0 then [First()] else []), seq(Length(), i => lead))
    }
  }

  /** Scans are in order, at most `d` apart; the last detection is at `until`. */
  lemma QuietTimes(q: Quiet, i: nat)
    requires q.Valid()
    ensures 0.0 <= q.Wall(i) <= q.Wall(i + 1) <= q.Wall(i) + q.d
    ensures q.Wall(0) == 0.0 && q.Wall(q.m) == q.until && (i <= q.m ==> q.Wall(i) <= q.until)
  {
    ProductIsNonNegative(i as real, q.d);
    assert (i + 1) as real * q.d == i as real * q.d + q.d;
    if i > q.m {
      ProductIsNonNegative((i - q.m) as real, q.d);
      assert (i + 1 - q.m) as real * q.d == (i - q.m) as real * q.d + q.d;
    }
    if i == q.m { assert (i + 1 - q.m) as real * q.d == q.d; }
  }

  lemma {:induction false} QuietOrder(q: Quiet, i: nat, j: nat)
    requires q.Valid() && i <= j
    ensures q.Wall(i) <= q.Wall(j)
  {
    hide q.Wall;
    if i < j {
      QuietOrder(q, i, j - 1);
      QuietTimes(q, j - 1);
    }
  }

  // ----- That run obeys every rule -----

  lemma OneDetection(d: Detection, k: Id)
    ensures Lookup(Current([d]), k) == if k == d.key then Some(d) else None
    ensures Lookup(Current([]), k) == None
  {
    assert [d][..0] == [];
  }

  lemma OneAlert(a: Alert, k: Id)
    ensures ForKey([a], k) == (if k == a.key then [a] else []) && ForKey([], k) == []
  {
    assert [a][..0] == [];
  }

  lemma QuietStep(q: Quiet, i: nat)
    requires q.Valid() && i < q.Length()
    ensures Step(q.policy, q.ttlS, q.StateAt(i), q.CallAt(i), q.StateAt(i + 1), if i == 0 then [q.First()] else [])
  {
    hide q.Wall, ForKey, Current, FoldKey;
    QuietTimes(q, i);
    var published := if i == 0 then [q.First()] else [];
    forall k
      ensures var o := React(q.policy, Lookup(q.StateAt(i).active, k), EventOf(q.CallAt(i), k));
        && Lookup(q.StateAt(i + 1).active, k) == o.slot && ForKey(published, k) == AsSeq(o.out)
        && Lookup(q.StateAt(i + 1).live, k)
           == FoldKey(Lookup(q.StateAt(i).live, k), ForKey(published, k), q.CallAt(i).wall, q.ttlS)
    {
      OneDetection(q.seen, k);
      OneAlert(q.First(), k);
      var o := React(q.policy, Lookup(q.StateAt(i).active, k), EventOf(q.CallAt(i), k));
      FoldAtMostOne(Lookup(q.StateAt(i).live, k), o.out, q.CallAt(i).wall, q.ttlS);
      QuietReaction(q, i, k);
    }
  }

  /** What each call of the run does to each key. */
  lemma QuietReaction(q: Quiet, i: nat, k: Id)
    requires q.Valid() && i < q.Length()
    ensures var o := React(q.policy, Lookup(q.StateAt(i).active, k), EventOf(q.CallAt(i), k));
      && o.slot == Lookup(q.StateAt(i + 1).active, k)
      && o.out == if i == 0 && k == q.seen.key then Some(q.First()) else None
  {
    hide q.Wall, Current;
    OneDetection(q.seen, k);
    QuietTimes(q, i);
  }

  lemma QuietEvent(q: Quiet, i: nat)
    requires i < q.Length()
    ensures var e := Events(q.AsCourse().calls, q.seen.key)[i];
      e.Scan? && e.wall == q.Wall(i) && e.now == Max(q.Wall(i), q.lead)
  {
    hide q.Wall;
  }

  lemma QuietLastWall(q: Quiet, i: nat)
    requires 0 < i <= q.Length()
    ensures LastWall(Events(q.AsCourse().calls, q.seen.key)[..i]) == Some(q.Wall(i - 1))
  {
    hide q.Wall, q.AsCourse;
    QuietEvent(q, i - 1);
    assert |q.AsCourse().calls| == q.Length();
  }

  lemma QuietIsTimed(q: Quiet)
    requires q.Valid()
    ensures Timed(q.AsCourse(), q.seen.key, q.d, q.lead)
  {
    hide q.Wall, LastWall;
    var (c, events) := (q.AsCourse(), Events(q.AsCourse().calls, q.seen.key));
    forall i | 0 <= i < |c.calls|
      ensures c.calls[i].now == Max(c.calls[i].wall, c.latest[i]) && c.calls[i].now - c.calls[i].wall <= q.lead
    {
      QuietTimes(q, i);
    }
    forall i, j | 0 <= i <= j < |c.calls| ensures c.calls[i].wall <= c.calls[j].wall { QuietOrder(q, i, j); }
    forall n | 0 <= n < |events| && LastWall(events[..n]).Some?
      ensures events[n].wall - LastWall(events[..n]).value <= q.d
    {
      QuietEvent(q, n);
      if n > 0 {
        QuietLastWall(q, n);
        QuietTimes(q, n - 1);
      } else {
        NoScanYet();
      }
    }
  }

  lemma NoScanYet()
    ensures LastWall([]).None?
  {
  }

  lemma QuietEnd(q: Quiet)
    requires q.Valid()
    ensures q.Wall(q.Length() - 1) + q.d == q.until + Times(Patience(q.policy), q.d)
  {
    var patience := Patience(q.policy);
    QuietTimes(q, q.m);
    assert (patience - 1) as real * q.d + q.d == patience as real * q.d;
    if patience == 1 { assert q.Wall(q.Length() - 1) == q.until; }
  }

  lemma QuietLapses(q: Quiet)
    requires q.Valid() && q.ttlS <= q.until + Times(Patience(q.policy), q.d)
    ensures Lapses(q.policy, q.ttlS, q.d, q.lead, q.AsCourse(), q.seen.key, q.until + Times(Patience(q.policy), q.d))
  {
    hide q.Wall, LastWall, PacedByWall, Step;
    var c := q.AsCourse();
    forall i | 0 <= i < |c.calls|
      ensures Step(q.policy, q.ttlS, c.states[i], c.calls[i], c.states[i + 1], c.streams[i])
    {
      QuietStep(q, i);
    }
    QuietIsTimed(q);
    QuietEnd(q);
    QuietLastWall(q, q.Length());
    assert Events(c.calls, q.seen.key)[..q.Length()] == Events(c.calls, q.seen.key);
  }

  // ----- Exactly when nothing lapses -----

  lemma TimedFacts(c: Course, k: Id, d: real, lead: real)
    requires Timed(c, k, d, lead)
    ensures PacedByWall(Events(c.calls, k), d) && NeverBehind(Events(c.calls, k))
    ensures forall i :: 0 <= i < |c.calls| ==> Lead(Events(c.calls, k)[i]) <= lead
  {
    hide LastWall;
  }

  lemma CoveredNeverLapses(policy: Policy, ttlS: real, d: real, lead: real, c: Course, k: Id, t: real)
    requires policy.sustainIntervalS > 0.0 && d > 0.0
    requires policy.sustainIntervalS + Times(Patience(policy), d) + lead <= ttlS
    ensures !Lapses(policy, ttlS, d, lead, c, k, t)
  {
    hide IsRun, Timed, LastWall, PacedByWall, NeverBehind, Lead, Patience, Times, PublishesAt;
    if Lapses(policy, ttlS, d, lead, c, k, t) {
      TimedFacts(c, k, d, lead);
      assert c.calls[..|c.calls|] == c.calls;
      NoActiveAlertExpires(policy, ttlS, c.calls, c.states, c.streams, |c.calls|, d, t, k);
      assert false;
    }
  }

  /** Enough scans `d` apart outlast any wait. */
  lemma ScansToOutlast(wait: real, d: real) returns (m: nat)
    requires wait >= 0.0 && d > 0.0
    ensures wait < m as real * d
  {
    var ratio := wait / d;
    assert ratio * d == wait;
    if ratio < 0.0 { ProductIsPositive(-ratio, d); }
    m := ratio.Floor + 1;
    var rest := m as real - ratio;
    ProductIsPositive(rest, d);
    assert rest * d == m as real * d - wait;
  }

  lemma UncoveredLapses(policy: Policy, ttlS: real, d: real, lead: real, seen: Detection) returns (q: Quiet, t: real)
    requires policy.sustainIntervalS > 0.0 && d > 0.0 && lead >= 0.0
    requires policy.sustainIntervalS + Times(Patience(policy), d) + lead > ttlS
    ensures Lapses(policy, ttlS, d, lead, q.AsCourse(), seen.key, t)
  {
    hide Patience, Lapses, Times;
    var misses := Times(Patience(policy), d);
    var until := Max(0.0, ttlS - misses);
    var m := ScansToOutlast(until, d);
    q := Quiet(policy, ttlS, d, lead, seen, until, m);
    t := until + misses;
    QuietLapses(q);
  }

  /** With scans at most `d` apart and the data clock at most `lead` ahead, no entry of an active key ever
      lapses exactly when the time to live covers the sustain interval, `d` for every scan the policy lets
      an alert miss, and the lead. */
  lemma NothingLapsesExactlyWhenCovered(policy: Policy, ttlS: real, d: real, lead: real, seen: Detection)
    requires policy.sustainIntervalS > 0.0 && d > 0.0 && lead >= 0.0
    ensures (forall c, t :: !Lapses(policy, ttlS, d, lead, c, seen.key, t))
       <==> policy.sustainIntervalS + Times(Patience(policy), d) + lead <= ttlS
  {
    hide Lapses, Patience, Times;
    if policy.sustainIntervalS + Times(Patience(policy), d) + lead <= ttlS {
      forall c, t ensures !Lapses(policy, ttlS, d, lead, c, seen.key, t) {
        CoveredNeverLapses(policy, ttlS, d, lead, c, seen.key, t);
      }
    } else {
      var q, t := UncoveredLapses(policy, ttlS, d, lead, seen);
    }
  }

  /** The program's settings: heartbeats every 10 s, scans every second, three scans to clear, entries held
      for 300 s.  They cover a data clock up to 287 s ahead, while up to a day is accepted. */
  const DEFAULT_POLICY := Policy(3, 10.0)
  const DEFAULT_TTL_S := 300.0
  const DEFAULT_SCAN_INTERVAL_S := 1.0

  lemma DefaultsCoverLeadsUpTo287(lead: real, seen: Detection)
    requires lead >= 0.0
    ensures (forall c, t :: !Lapses(DEFAULT_POLICY, DEFAULT_TTL_S, DEFAULT_SCAN_INTERVAL_S, lead, c, seen.key, t))
       <==> lead <= 287.0
  {
    hide Lapses;
    NothingLapsesExactlyWhenCovered(DEFAULT_POLICY, DEFAULT_TTL_S, DEFAULT_SCAN_INTERVAL_S, lead, seen);
  }
}
