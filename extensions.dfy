/** AsyncEnumeratorExtensions.ForeachAsync (src/AsyncEnumerator/AsyncEnumeratorExtensions.cs):
    the consumer loop `while (await iter.MoveNext()) action(iter.Current);`.
    The enumerator is seen through what each successive awaited MoveNext
    yields; the action through the outcome of running it on a value. */
module ForeachLoop {
  import opened Tasks
  import AsyncSequenceChannel
  import RendezvousEnumerator

  /** How a task ends: it completes, it fails with an exception, or it never
      completes. Used both for the action's task and for ForeachAsync's own. */
  datatype Outcome = Completed | Failed(error: Error) | Stalled

  /** The specification of the loop: the values the action is run on, and how
      the returned task ends. A MoveNext that never completes, or one past the
      end of `answers`, leaves the loop waiting. */
  function Foreach<T>(answers: seq<Observation<T>>, action: T -> Outcome): (r: (seq<T>, Outcome))
    ensures |r.0| <= |answers|
    decreases |answers|
  {
    if answers == [] then ([], Stalled)
    else
      match answers[0]
      case End => ([], Completed)
      case Throws(e) => ([], Failed(e))
      case Hangs => ([], Stalled)
      case Next(v) =>
        match action(v)
        case Failed(e) => ([v], Failed(e))
        case Stalled => ([v], Stalled)
        case Completed =>
          var (vs, o) := Foreach(answers[1..], action);
          ([v] + vs, o)
  }

  /** The loop only ever applies the action to the values of MoveNexts that
      answered true, in the order they came, and goes on past a value only
      when the action's task on it completed. */
  lemma {:induction false} AppliesAnsweredValues<T>(answers: seq<Observation<T>>, action: T -> Outcome)
    ensures var r := Foreach(answers, action);
            && (forall i :: 0 <= i < |r.0| ==> answers[i] == Next(r.0[i]))
            && (forall i :: 0 <= i < |r.0| - 1 ==> action(r.0[i]) == Completed)
    decreases |answers|
  {
    if answers != [] && answers[0].Next? && action(answers[0].value).Completed? {
      AppliesAnsweredValues(answers[1..], action);
      var r := Foreach(answers, action);
      var t := Foreach(answers[1..], action);
      assert r.0 == [answers[0].value] + t.0;
      forall i | 0 <= i < |r.0|
        ensures answers[i] == Next(r.0[i])
      {
        if i > 0 {
          assert r.0[i] == t.0[i - 1] && answers[i] == answers[1..][i - 1];
        }
      }
      forall i | 0 <= i < |r.0| - 1
        ensures action(r.0[i]) == Completed
      {
        if i > 0 {
          assert r.0[i] == t.0[i - 1];
        }
      }
    }
  }

  /** ForeachAsync(iter, Func<T, Task> action): each action's task is awaited
      before the next MoveNext; nothing is caught, so an exception from
      MoveNext or from the action ends the loop with that exception. */
  method ForeachAsync<T>(answers: seq<Observation<T>>, action: T -> Outcome) returns (applied: seq<T>, outcome: Outcome)
    ensures (applied, outcome) == Foreach(answers, action)
  {
    applied := [];
    var i := 0;
    assert answers[i..] == answers;
    while i < |answers| && answers[i].Next? && action(answers[i].value).Completed?
      invariant 0 <= i <= |answers|
      invariant Foreach(answers, action).0 == applied + Foreach(answers[i..], action).0
      invariant Foreach(answers, action).1 == Foreach(answers[i..], action).1
      decreases |answers| - i
    {
      ForeachStep(answers, action, i);
      applied := applied + [answers[i].value];
      i := i + 1;
    }
    if i == |answers| {
      assert answers[i..] == [];
      outcome := Stalled;
    } else {
      ForeachStop(answers[i..], action);
      assert answers[i..][0] == answers[i];
      match answers[i]
      case End =>
        outcome := Completed;
      case Throws(e) =>
        outcome := Failed(e);
      case Hangs =>
        outcome := Stalled;
      case Next(v) =>
        applied := applied + [v];
        outcome := action(v);
    }
    assert applied == Foreach(answers, action).0;
  }

  /** One completed iteration: the value at `i` is applied and the loop goes on
      from `i + 1`. */
  lemma ForeachStep<T>(answers: seq<Observation<T>>, action: T -> Outcome, i: nat)
    requires i < |answers| && answers[i].Next? && action(answers[i].value).Completed?
    ensures Foreach(answers[i..], action).0 == [answers[i].value] + Foreach(answers[i + 1..], action).0
    ensures Foreach(answers[i..], action).1 == Foreach(answers[i + 1..], action).1
  {
    assert answers[i..][1..] == answers[i + 1..];
  }

  /** The iteration that ends the loop. */
  lemma ForeachStop<T>(answers: seq<Observation<T>>, action: T -> Outcome)
    requires answers != [] && !(answers[0].Next? && action(answers[0].value).Completed?)
    ensures Foreach(answers, action).0 == if answers[0].Next? then [answers[0].value] else []
    ensures Foreach(answers, action).1 == match answers[0]
      case Next(v) => action(v)
      case End => Completed
      case Throws(e) => Failed(e)
      case Hangs => Stalled
  {
  }

  /** The synchronous action as a task that is already finished: it completes,
      or it throws. */
  function Lift<T>(action: T -> Option<Error>): T -> Outcome
  {
    v => if action(v).Some? then Failed(action(v).value) else Completed
  }

  /** ForeachAsync(iter, Action<T> action): the same loop with an action that
      runs to its end before the next MoveNext, so the loop never stalls on it. */
  method ForeachAsyncAction<T>(answers: seq<Observation<T>>, action: T -> Option<Error>) returns (applied: seq<T>, outcome: Outcome)
    ensures (applied, outcome) == Foreach(answers, Lift(action))
    ensures outcome.Stalled? ==> (|applied| < |answers| && answers[|applied|].Hangs?) || |applied| == |answers|
  {
    applied, outcome := ForeachAsync(answers, Lift(action));
    NeverStallsOnAction(answers, action);
  }

  lemma {:induction false} NeverStallsOnAction<T>(answers: seq<Observation<T>>, action: T -> Option<Error>)
    ensures var r := Foreach(answers, Lift(action));
            r.1.Stalled? ==> (|r.0| < |answers| && answers[|r.0|].Hangs?) || |r.0| == |answers|
    decreases |answers|
  {
    if answers != [] && answers[0].Next? && action(answers[0].value).None? {
      NeverStallsOnAction(answers[1..], action);
    }
  }

  function NextsOf<T>(vs: seq<T>): (obs: seq<Observation<T>>)
    ensures |obs| == |vs| && forall i :: 0 <= i < |vs| ==> obs[i] == Next(vs[i])
  {
    seq(|vs|, i requires 0 <= i < |vs| => Next(vs[i]))
  }

  /** The loop runs the action once per MoveNext that answered true, on the
      value read right after it, in order, and stops at the first false: the
      answers after it are never consulted. */
  lemma {:induction false} StopsAtFirstFalse<T>(vs: seq<T>, rest: seq<Observation<T>>, action: T -> Outcome)
    requires forall v :: v in vs ==> action(v) == Completed
    ensures Foreach(NextsOf(vs) + [End] + rest, action) == (vs, Completed)
    decreases |vs|
  {
    var answers := NextsOf(vs) + [End] + rest;
    if vs == [] {
      assert answers[0] == End;
    } else {
      assert answers[0] == Next(vs[0]);
      assert answers[1..] == NextsOf(vs[1..]) + [End] + rest;
      assert vs[0] in vs;
      ForeachStep(answers, action, 0);
      assert answers[0..] == answers;
      StopsAtFirstFalse(vs[1..], rest, action);
      assert vs == [vs[0]] + vs[1..];
    }
  }

  /** An exception from MoveNext propagates: after the values before it, the
      loop's task fails with that exception. */
  lemma {:induction false} MoveNextExceptionPropagates<T>(vs: seq<T>, err: Error, rest: seq<Observation<T>>, action: T -> Outcome)
    requires forall v :: v in vs ==> action(v) == Completed
    ensures Foreach(NextsOf(vs) + [Throws(err)] + rest, action) == (vs, Failed(err))
    decreases |vs|
  {
    var answers := NextsOf(vs) + [Throws(err)] + rest;
    if vs == [] {
      assert answers[0] == Throws(err);
    } else {
      assert answers[0] == Next(vs[0]);
      assert answers[1..] == NextsOf(vs[1..]) + [Throws(err)] + rest;
      assert vs[0] in vs;
      ForeachStep(answers, action, 0);
      assert answers[0..] == answers;
      MoveNextExceptionPropagates(vs[1..], err, rest, action);
      assert vs == [vs[0]] + vs[1..];
    }
  }

  /** An exception from the action propagates at once: no further MoveNext is
      issued, and the loop's task fails with it. Likewise an action task that
      never completes holds the loop: the next MoveNext is never issued. */
  lemma {:induction false} ActionOutcomeEndsLoop<T>(vs: seq<T>, v: T, rest: seq<Observation<T>>, action: T -> Outcome)
    requires forall u :: u in vs ==> action(u) == Completed
    requires !action(v).Completed?
    ensures Foreach(NextsOf(vs) + [Next(v)] + rest, action) == (vs + [v], action(v))
    decreases |vs|
  {
    var answers := NextsOf(vs) + [Next(v)] + rest;
    if vs == [] {
      assert answers[0] == Next(v);
      assert vs + [v] == [v];
    } else {
      assert answers[0] == Next(vs[0]);
      assert answers[1..] == NextsOf(vs[1..]) + [Next(v)] + rest;
      assert vs[0] in vs;
      ForeachStep(answers, action, 0);
      assert answers[0..] == answers;
      ActionOutcomeEndsLoop(vs[1..], v, rest, action);
      assert vs + [v] == [vs[0]] + (vs[1..] + [v]);
    }
  }

  // ---------------------------------------------------------------------------
  // The loop over the channels of this library.

  /** Over the rendezvous AsyncEnumerator<T>: a body returning `vs` and then
      breaking has the action run on exactly `vs`, in order, and the loop
      completes. */
  lemma ForeachOverRendezvous<T>(vs: seq<T>, defaultValue: T, action: T -> Outcome)
    requires vs != []
    requires forall v :: v in vs ==> action(v) == Completed
    ensures var body := RendezvousEnumerator.Body(RendezvousEnumerator.Yields(vs), RendezvousEnumerator.BreakAndReturn);
            var answers := RendezvousEnumerator.Pulls(RendezvousEnumerator.Create(body, defaultValue), body, defaultValue, |vs| + 1).1;
            Foreach(answers, action) == (vs, Completed)
  {
    RendezvousEnumerator.HandsOverInOrder(vs, defaultValue);
    assert RendezvousEnumerator.Nexts(vs) + [End] == NextsOf(vs) + [End] + [];
    StopsAtFirstFalse(vs, [], action);
  }

  /** The ThrowsOnMoveNext test: `while (await seq.MoveNext()) {}` over a body
      that returns 1 and then throws ends with that exception. */
  lemma ThrowsOnMoveNextTest(err: Error)
    ensures var body := RendezvousEnumerator.Body([RendezvousEnumerator.Yield(1)], RendezvousEnumerator.Throw(err));
            var answers := RendezvousEnumerator.Pulls(RendezvousEnumerator.Create(body, 0), body, 0, 4).1;
            Foreach(answers, (v: int) => Completed) == ([1], Failed(err))
  {
    RendezvousEnumerator.ThrowAfterOneValueTrace(err);
    var answers: seq<Observation<int>> := [Next(1), Throws(err), Throws(err), Throws(err)];
    assert answers == NextsOf([1]) + [Throws(err)] + [Throws(err), Throws(err)];
    MoveNextExceptionPropagates([1], err, [Throws(err), Throws(err)], (v: int) => Completed);
  }

  /** The answers of a run in which every event is a MoveNext. */
  function Answers<T>(obs: seq<Option<Observation<T>>>): (answers: seq<Observation<T>>)
    ensures |answers| == |obs|
    ensures forall i :: 0 <= i < |obs| && obs[i].Some? ==> answers[i] == obs[i].value
  {
    seq(|obs|, i requires 0 <= i < |obs| => if obs[i].Some? then obs[i].value else Hangs)
  }

  /** Over a finished AsyncSequence<T>: the action runs on exactly the queued
      values, in the order they were queued, and the loop completes. */
  lemma ForeachOverFinishedSequence<T>(s: AsyncSequenceChannel.Session<T>, action: T -> Outcome)
    requires AsyncSequenceChannel.Inv(s) && !s.suspended && s.channel.exception.None? && s.channel.isCompleted
    requires forall v :: v in s.channel.valueQueue ==> action(v) == Completed
    ensures Foreach(Answers(AsyncSequenceChannel.Drain(s, |s.channel.valueQueue| + 1)), action) == (s.channel.valueQueue, Completed)
  {
    var q := s.channel.valueQueue;
    AsyncSequenceChannel.DrainFinished(s);
    assert Answers(AsyncSequenceChannel.Drain(s, |q| + 1)) == NextsOf(q) + [End] + [];
    StopsAtFirstFalse(q, [], action);
  }
}
