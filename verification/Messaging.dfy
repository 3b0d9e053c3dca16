/** The consumer loop (messaging.py): a record's offset is committed only once the record has been
    handled or found malformed, through crashes and restarts. */
module Messaging {
  import opened Prelude

  /** A record of the partition; a malformed one fails validation. */
  datatype Record<M> = Decoded(message: M) | Malformed

  /** Where the loop stands: between records, holding one its consumer is working on, done with one
      whose offset is not yet committed, or about to commit past a malformed one. */
  datatype Phase = Between | Yielded(offset: nat) | Worked(offset: nat) | Skipping(offset: nat)

  /** The broker's committed offset, the position of the running process, and everything that has
      happened: what was yielded, worked through and discarded, and how often the process died. */
  datatype Loop = Loop(
    committed: nat,
    position: nat,
    phase: Phase,
    yielded: seq<nat>,
    worked: seq<nat>,
    discarded: seq<nat>,
    crashes: nat)

  const START := Loop(0, 0, Between, [], [], [], 0)

  datatype Step = Fetch | Finish | Commit | Crash

  function Apply<M>(log: seq<Record<M>>, l: Loop, s: Step): Loop {
    match s
    case Fetch =>
      if l.phase != Between || l.position >= |log| then l
      else if log[l.position].Malformed? then
        l.(position := l.position + 1, phase := Skipping(l.position), discarded := l.discarded + [l.position])
      else
        l.(position := l.position + 1, phase := Yielded(l.position), yielded := l.yielded + [l.position])
    case Finish =>
      if l.phase.Yielded? then l.(phase := Worked(l.phase.offset), worked := l.worked + [l.phase.offset]) else l
    case Commit =>
      if l.phase.Worked? || l.phase.Skipping? then l.(committed := l.phase.offset + 1, phase := Between) else l
    case Crash =>
      l.(position := l.committed, phase := Between, crashes := l.crashes + 1)
  }

  function Run<M>(log: seq<Record<M>>, steps: seq<Step>): Loop {
    if steps == [] then START else Apply(log, Run(log, steps[..|steps| - 1]), steps[|steps| - 1])
  }

  /** Every offset below the committed one was worked through, or was malformed and discarded. */
  ghost predicate NothingSkipped<M>(log: seq<Record<M>>, l: Loop) {
    l.committed <= |log|
    && forall i :: 0 <= i < l.committed ==> if log[i].Malformed? then i in l.discarded else i in l.worked
  }

  /** Records are taken in order: each is the one before it again, or the next that is well formed. */
  ghost predicate InOrder<M>(log: seq<Record<M>>, offsets: seq<nat>) {
    forall n :: 0 < n < |offsets| ==>
      && offsets[n - 1] <= offsets[n] < |log|
      && forall i :: offsets[n - 1] < i < offsets[n] ==> log[i].Malformed?
  }

  ghost predicate Consistent<M>(log: seq<Record<M>>, l: Loop) {
    && NothingSkipped(log, l)
    && l.position == l.committed + (if l.phase == Between then 0 else 1)
    && (l.phase != Between ==> l.phase.offset == l.committed < |log|)
    && (l.phase.Yielded? || l.phase.Worked? ==> l.yielded != [] && l.yielded[|l.yielded| - 1] == l.committed)
    && (l.phase.Worked? ==> l.committed in l.worked)
    && (l.phase.Skipping? ==> log[l.committed].Malformed? && l.committed in l.discarded)
    && (l.phase.Yielded? || l.phase.Worked? ==> !log[l.committed].Malformed?)
  }

  /** What was yielded so far, against the position. */
  ghost predicate Counted<M>(log: seq<Record<M>>, l: Loop) {
    && |l.yielded| + |l.discarded| <= l.position + l.crashes
    && InOrder(log, l.yielded)
    && (l.yielded != [] ==>
      var last := l.yielded[|l.yielded| - 1];
      last <= l.position && last < |log| && (last == l.position ==> l.phase == Between)
      && forall i :: last < i < l.position && i < |log| ==> log[i].Malformed?)
    && (l.yielded == [] ==> forall i :: 0 <= i < l.position && i < |log| ==> log[i].Malformed?)
  }

  lemma StepKeepsConsistent<M>(log: seq<Record<M>>, l: Loop, s: Step)
    requires Consistent(log, l)
    ensures Consistent(log, Apply(log, l, s))
  {
    var after := Apply(log, l, s);
    if s.Commit? && (l.phase.Worked? || l.phase.Skipping?) {
      forall i | 0 <= i < after.committed
        ensures if log[i].Malformed? then i in after.discarded else i in after.worked
      {
        if i == l.committed {
          assert l.phase.Worked? ==> !log[i].Malformed?;
        }
      }
    }
  }

  lemma StepKeepsCounted<M>(log: seq<Record<M>>, l: Loop, s: Step)
    requires Consistent(log, l) && Counted(log, l)
    ensures Counted(log, Apply(log, l, s))
  {
    hide InOrder, NothingSkipped;
    var after := Apply(log, l, s);
    if s.Fetch? && after.yielded != l.yielded {
      InOrderGrows(log, l.yielded, l.position);
    }
  }

  lemma InOrderGrows<M>(log: seq<Record<M>>, offsets: seq<nat>, next: nat)
    requires InOrder(log, offsets) && next < |log|
    requires offsets != [] ==>
      offsets[|offsets| - 1] <= next && forall i :: offsets[|offsets| - 1] < i < next ==> log[i].Malformed?
    ensures InOrder(log, offsets + [next])
  {
  }

  lemma {:induction false} RunIsConsistent<M>(log: seq<Record<M>>, steps: seq<Step>)
    ensures Consistent(log, Run(log, steps)) && Counted(log, Run(log, steps))
  {
    if steps != [] {
      var before := steps[..|steps| - 1];
      RunIsConsistent(log, before);
      StepKeepsConsistent(log, Run(log, before), steps[|steps| - 1]);
      StepKeepsCounted(log, Run(log, before), steps[|steps| - 1]);
      hide Apply, Consistent, Counted;
    }
  }

  /** In every run, whatever crashes: every offset below the committed one was handled or discarded as
      malformed; the process stands at most one record past the committed offset; records are yielded in
      order, each crash making at most one of them come again. */
  lemma AtLeastOnceInOrder<M>(log: seq<Record<M>>, steps: seq<Step>)
    ensures var l := Run(log, steps);
      && NothingSkipped(log, l) && l.committed <= l.position <= l.committed + 1
      && InOrder(log, l.yielded)
      && |l.yielded| + |l.discarded| <= l.position + l.crashes
  {
    RunIsConsistent(log, steps);
    hide Apply, InOrder, NothingSkipped;
  }

  /** A handled record whose offset was not committed is exactly what a crash brings back. */
  lemma CrashRedelivers<M>(log: seq<Record<M>>, steps: seq<Step>)
    ensures var l := Run(log, steps); var again := Apply(log, Apply(log, l, Crash), Fetch);
      l.phase.Yielded? || l.phase.Worked? ==> again.phase == Yielded(l.phase.offset)
  {
    RunIsConsistent(log, steps);
    hide Counted, NothingSkipped;
  }

  // ----- The loop itself -----

  /** The running subscriber.  `Next` is what the consumer of the stream does when it asks for the next
      message: the offset of the one it has just worked through is committed first. */
  class MessageSubscriber<M(==)> {
    const log: seq<Record<M>>
    ghost var history: seq<Step>
    var committed: nat
    var position: nat
    var inHand: Option<nat>

    ghost predicate Valid()
      reads this
    {
      var l := Run(log, history);
      l.committed == committed && l.position == position
      && l.phase == (if inHand.Some? then Yielded(inHand.value) else Between)
    }

    constructor (log: seq<Record<M>>)
      ensures Valid() && this.log == log && history == [] && committed == 0
    {
      this.log, history, committed, position, inHand := log, [], 0, 0, None;
    }

    /** The message in hand has been worked through: commit its offset. */
    method CommitHeld()
      requires Valid() && inHand.Some?
      modifies this
      ensures Valid() && history == old(history) + [Finish, Commit]
      ensures inHand == None && committed == old(inHand).value + 1 && position == old(position)
    {
      hide Run;
      RunExtends(log, history, Finish);
      RunExtends(log, history + [Finish], Commit);
      assert history + [Finish, Commit] == history + [Finish] + [Commit];
      history := history + [Finish, Commit];
      committed := inHand.value + 1;
      inHand := None;
    }

    /** Take one record: hand it out, or commit past it if it is malformed. */
    method TakeOne() returns (message: Option<M>)
      requires Valid() && inHand == None && position < |log| && committed == position
      modifies this
      ensures Valid() && position == old(position) + 1
      ensures if log[old(position)].Malformed? then message == None && inHand == None && committed == position
              else message == Some(log[old(position)].message)
                   && inHand == Some(old(position)) && committed == old(committed)
      ensures history == old(history) + if message.Some? then [Fetch] else [Fetch, Commit]
    {
      hide Run;
      var record := log[position];
      RunExtends(log, history, Fetch);
      position := position + 1;
      if record.Decoded? {
        history := history + [Fetch];
        message, inHand := Some(record.message), Some(position - 1);
        return;
      }
      RunExtends(log, history + [Fetch], Commit);
      assert history + [Fetch, Commit] == history + [Fetch] + [Commit];
      history := history + [Fetch, Commit];
      message, committed := None, position;
    }

    /** Commit what was in hand, skip and commit past malformed records, and yield the next message. */
    method Next() returns (message: Option<M>)
      requires Valid()
      modifies this
      ensures Valid() && NoCrashSince(old(history), history)
      ensures message.Some? <==> exists i :: old(position) <= i < |log| && log[i].Decoded?
      ensures message.Some? ==>
        && inHand == Some(committed) && position == committed + 1 && old(position) <= committed < |log|
        && log[committed] == Decoded(message.value) && forall i :: old(position) <= i < committed ==> log[i].Malformed?
      ensures message.None? ==> inHand == None && committed == position == Maximum(old(position), |log|)
    {
      hide Valid;
      PositionFollows();
      if inHand.Some? {
        CommitHeld();
      }
      message := None;
      while position < |log|
        invariant Valid() && inHand == None && committed == position && message == None
        invariant NoCrashSince(old(history), history)
        invariant old(position) <= position && (position <= |log| || position == old(position))
        invariant forall i :: old(position) <= i < position ==> log[i].Malformed?
      {
        message := TakeOne();
        if message.Some? {
          assert log[committed].Decoded?;
          return;
        }
      }
    }

    lemma PositionFollows()
      requires Valid()
      ensures position == committed + (if inHand.Some? then 1 else 0)
      ensures inHand.Some? ==> inHand.value == committed
    {
      RunIsConsistent(log, history);
    }

    /** The process dies and is started again: it resumes from the committed offset. */
    method Restart()
      requires Valid()
      modifies this
      ensures Valid() && history == old(history) + [Crash]
      ensures position == committed == old(committed) && inHand == None
    {
      PositionFollows();
      RunExtends(log, history, Crash);
      history := history + [Crash];
      position, inHand := committed, None;
    }
  }

  predicate NoCrashSince(before: seq<Step>, after: seq<Step>) {
    before <= after && Crash !in after[|before|..]
  }

  function Maximum(a: nat, b: nat): nat {
    if a >= b then a else b
  }

  lemma RunExtends<M>(log: seq<Record<M>>, steps: seq<Step>, s: Step)
    ensures Run(log, steps + [s]) == Apply(log, Run(log, steps), s)
  {
    assert (steps + [s])[..|steps|] == steps;
  }
}
