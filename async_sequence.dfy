/** AsyncSequence<T> (src/AsyncEnumerator/AsyncSequence.cs): a buffered channel.
    The producer body appends to a FIFO queue and never waits; the consumer's
    MoveNext dequeues, and suspends on `_nextSource` only while the queue is
    empty and the body has not completed. A producer exception is kept and
    rethrown by every later MoveNext. */
module AsyncSequenceChannel {
  import opened Tasks

  /** The fields of an AsyncSequence<T>: `_valueQueue`, `_nextSource` (None
      while null), `_exception`, `Current` and `IsCompleted`. */
  datatype State<T> = State(
    valueQueue: seq<T>,
    nextSource: Option<Cell>,
    exception: Option<Error>,
    current: T,
    isCompleted: bool)
  {
    /** MoveNext up to `await _nextSource.Task`. A Pending result means the
        consumer is now suspended on `nextSource`; any other result is the
        task MoveNext has returned. */
    function MoveNextStart(): (r: (State<T>, Cell))
      ensures exception.Some? ==> r == (this, Faulted(exception.value))
      ensures r.1 == Done(true) <==> exception.None? && valueQueue != []
      ensures r.1 == Done(true) ==> [r.0.current] + r.0.valueQueue == valueQueue
      ensures r.1 == Done(false) <==> exception.None? && valueQueue == [] && isCompleted
      ensures r.1 == Pending <==> exception.None? && valueQueue == [] && !isCompleted
      ensures r.1 == Pending ==> r.0 == this.(nextSource := Some(Pending))
      ensures r.1 != Pending ==> r.0.nextSource == nextSource
      ensures r.1 != Done(true) ==> r.0.current == current && r.0.valueQueue == valueQueue
      ensures r.0.exception == exception && r.0.isCompleted == isCompleted
    {
      if exception.Some? then (this, Faulted(exception.value))
      else if valueQueue != [] then (this.(valueQueue := valueQueue[1..], current := valueQueue[0]), Done(true))
      else if isCompleted then (this, Done(false))
      else (this.(nextSource := Some(Pending)), Pending)
    }

    /** MoveNext after `await _nextSource.Task` has completed: a faulted wait
        rethrows; otherwise the head of the queue is delivered, and with an
        empty queue the result is `!IsCompleted` with Current unchanged. */
    function MoveNextResume(): (r: (State<T>, Cell))
      requires nextSource.Some? && nextSource.value.IsResolved()
      ensures r.1.IsResolved()
      ensures nextSource.value.Faulted? ==> r == (this, Faulted(nextSource.value.error))
      ensures r.1 == Done(true) && r.0.valueQueue != valueQueue ==> [r.0.current] + r.0.valueQueue == valueQueue
      ensures !nextSource.value.Faulted? && valueQueue == [] ==> r == (this, Done(!isCompleted))
      ensures !nextSource.value.Faulted? && valueQueue != [] ==> r.1 == Done(true) && r.0.valueQueue == valueQueue[1..]
      ensures r.0.nextSource == nextSource && r.0.exception == exception && r.0.isCompleted == isCompleted
    {
      if nextSource.value.Faulted? then (this, Faulted(nextSource.value.error))
      else if valueQueue == [] then (this, Done(!isCompleted))
      else (this.(valueQueue := valueQueue[1..], current := valueQueue[0]), Done(true))
    }

    /** The producer's Return(value): appends at the tail and wakes a waiting
        consumer with true; it never waits and touches nothing else. */
    function Return(value: T): (r: State<T>)
      ensures r.valueQueue == valueQueue + [value]
      ensures r.nextSource == ResolveIfAny(nextSource, true)
      ensures r.current == current && r.exception == exception && r.isCompleted == isCompleted
    {
      this.(valueQueue := valueQueue + [value], nextSource := ResolveIfAny(nextSource, true))
    }

    /** The producer's Break(): marks the sequence completed and wakes a waiting
        consumer with false; the queue is left as it is. */
    function Break(): (r: State<T>)
      ensures r.isCompleted
      ensures r.nextSource == ResolveIfAny(nextSource, false)
      ensures r.valueQueue == valueQueue && r.current == current && r.exception == exception
    {
      this.(isCompleted := true, nextSource := ResolveIfAny(nextSource, false))
    }

    /** SetException, also the builder's SetException: the exception is stored
        and a waiting consumer's task is faulted with it. */
    function SetException(e: Error): (r: State<T>)
      ensures r.exception == Some(e)
      ensures r.nextSource == FaultIfAny(nextSource, e)
      ensures r.valueQueue == valueQueue && r.current == current && r.isCompleted == isCompleted
    {
      this.(exception := Some(e), nextSource := FaultIfAny(nextSource, e))
    }

    /** The builder's SetResult: only IsCompleted is set; no waiting consumer is woken. */
    function SetResult(): (r: State<T>)
      ensures r.isCompleted
      ensures r.(isCompleted := isCompleted) == this
    {
      this.(isCompleted := true)
    }

    /** The awaiter's GetResult: rethrows the stored exception, if any. */
    function AwaiterGetResult(): (r: Call<()>)
      ensures r.Threw? <==> exception.Some?
      ensures r.Threw? ==> r.error == exception.value
    {
      if exception.Some? then Threw(exception.value) else Returned(())
    }
  }

  /** A freshly created AsyncSequence<T>: everything null, false or default. */
  function Initial<T>(defaultValue: T): State<T>
  {
    State([], None, None, defaultValue, false)
  }

  /** The AsyncSequence<T> object itself, its fields updated in place. */
  class AsyncSequence<T> {
    var valueQueue: seq<T>
    var nextSource: Option<Cell>
    var exception: Option<Error>
    var current: T
    var isCompleted: bool
    /** default(T) */
    const defaultValue: T

    function Model(): State<T>
      reads this
    {
      State(valueQueue, nextSource, exception, current, isCompleted)
    }

    constructor (defaultValue: T)
      ensures Model() == Initial(defaultValue) && this.defaultValue == defaultValue
    {
      this.defaultValue := defaultValue;
      valueQueue, nextSource, exception, current, isCompleted := [], None, None, defaultValue, false;
    }

    method MoveNextStart() returns (task: Cell)
      modifies this
      ensures (Model(), task) == old(Model()).MoveNextStart()
    {
      if exception.Some? {
        return Faulted(exception.value);
      }
      if valueQueue != [] {
        current := valueQueue[0];
        valueQueue := valueQueue[1..];
        return Done(true);
      }
      if isCompleted {
        return Done(false);
      }
      nextSource := Some(Pending);
      task := Pending;
    }

    method MoveNextResume() returns (task: Cell)
      requires nextSource.Some? && nextSource.value.IsResolved()
      modifies this
      ensures (Model(), task) == old(Model()).MoveNextResume()
    {
      if nextSource.value.Faulted? {
        return Faulted(nextSource.value.error);
      }
      if valueQueue == [] {
        return Done(!isCompleted);
      }
      current := valueQueue[0];
      valueQueue := valueQueue[1..];
      task := Done(true);
    }

    method Return(value: T)
      modifies this
      ensures Model() == old(Model()).Return(value)
    {
      valueQueue := valueQueue + [value];
      nextSource := ResolveIfAny(nextSource, true);
    }

    method Break() returns (d: T)
      modifies this
      ensures Model() == old(Model()).Break() && d == defaultValue
    {
      isCompleted := true;
      nextSource := ResolveIfAny(nextSource, false);
      d := defaultValue;
    }

    method SetException(e: Error)
      modifies this
      ensures Model() == old(Model()).SetException(e)
    {
      exception := Some(e);
      nextSource := FaultIfAny(nextSource, e);
    }

    /** AsyncSequenceMethodBuilder.SetResult */
    method SetResult()
      modifies this
      ensures Model() == old(Model()).SetResult()
    {
      isCompleted := true;
    }

    method AwaiterGetResult() returns (r: Call<()>)
      ensures r == Model().AwaiterGetResult()
    {
      if exception.Some? {
        return Threw(exception.value);
      }
      r := Returned(());
    }
  }

  // ---------------------------------------------------------------------------
  // Sessions: the producer body and the consumer acting on one channel, one
  // step at a time. The body runs on the thread pool, so any interleaving of
  // its steps with the consumer's is possible.

  /** One step of the producer body or of the consumer. */
  datatype Event<T> =
    | MoveNext                 // the consumer calls MoveNext
    | Resume                   // the consumer's `await _nextSource.Task` completes
    | Produce(value: T)        // the body calls Return(value)
    | BreakAndReturn           // the body executes `return yield.Break();`
    | BodyReturns              // the body returns without calling Break
    | BodyThrows(error: Error) // the body throws

  /** A channel, whether the consumer is suspended inside MoveNext, and whether
      the producer body has finished. */
  datatype Session<T> = Session(channel: State<T>, suspended: bool, bodyDone: bool)

  function Start<T>(defaultValue: T): Session<T>
  {
    Session(Initial(defaultValue), false, false)
  }

  /** One event. An event that cannot happen in the current session (MoveNext
      while suspended, Resume before the wait is resolved, a producer step after
      the body finished) changes nothing. The second component is what the
      consumer observes, if this event completes a MoveNext. */
  function Step<T>(s: Session<T>, e: Event<T>): (r: (Session<T>, Option<Observation<T>>))
    ensures r.0.bodyDone == (s.bodyDone || e.BreakAndReturn? || e.BodyReturns? || e.BodyThrows?)
    ensures r.1.Some? ==> e.MoveNext? || e.Resume?
  {
    match e
    case MoveNext =>
      if s.suspended then (s, None)
      else
        var (c, task) := s.channel.MoveNextStart();
        if task.Pending? then (s.(channel := c, suspended := true), None)
        else (s.(channel := c), Some(Observe(task, c.current)))
    case Resume =>
      if s.suspended && s.channel.nextSource.Some? && s.channel.nextSource.value.IsResolved() then
        var (c, task) := s.channel.MoveNextResume();
        (s.(channel := c, suspended := false), Some(Observe(task, c.current)))
      else (s, None)
    case Produce(v) =>
      if s.bodyDone then (s, None) else (s.(channel := s.channel.Return(v)), None)
    case BreakAndReturn =>
      if s.bodyDone then (s, None) else (s.(channel := s.channel.Break().SetResult(), bodyDone := true), None)
    case BodyReturns =>
      if s.bodyDone then (s, None) else (s.(channel := s.channel.SetResult(), bodyDone := true), None)
    case BodyThrows(err) =>
      if s.bodyDone then (s, None) else (s.(channel := s.channel.SetException(err), bodyDone := true), None)
  }

  /** A run of events, with what the consumer observes at each of them. */
  function Run<T>(s: Session<T>, events: seq<Event<T>>): (r: (Session<T>, seq<Option<Observation<T>>>))
    ensures |r.1| == |events|
    decreases |events|
  {
    if events == [] then (s, [])
    else
      var first := Step(s, events[0]);
      var rest := Run(first.0, events[1..]);
      (rest.0, [first.1] + rest.1)
  }

  /** The values the body hands over with Return, in order: those before its
      first terminating step, if it has not finished already. */
  function Produced<T>(bodyDone: bool, events: seq<Event<T>>): seq<T>
    decreases |events|
  {
    if events == [] then []
    else
      match events[0]
      case Produce(v) => (if bodyDone then [] else [v]) + Produced(bodyDone, events[1..])
      case BreakAndReturn => Produced(true, events[1..])
      case BodyReturns => Produced(true, events[1..])
      case BodyThrows(_) => Produced(true, events[1..])
      case _ => Produced(bodyDone, events[1..])
  }

  /** What every reachable session satisfies. A suspended consumer has a wait
      cell; if it was woken with true the queue holds a value, if with false the
      sequence is completed; completion and a stored exception only come from
      the body's end. */
  predicate Inv<T>(s: Session<T>)
  {
    && (s.suspended ==> s.channel.nextSource.Some?)
    && (s.suspended && s.channel.nextSource == Some(Done(true)) ==> s.channel.valueQueue != [])
    && (s.suspended && s.channel.nextSource == Some(Done(false)) ==> s.channel.isCompleted)
    && (s.channel.isCompleted ==> s.bodyDone)
    && (s.channel.exception.Some? ==> s.bodyDone)
  }

  lemma StartSatisfiesInv<T>(defaultValue: T)
    ensures Inv(Start(defaultValue))
  {
  }

  /** One step keeps the invariant, and moves values from the producer to the
      consumer without loss, duplication or reordering. A false is observed only
      once the queue is empty and the sequence is completed. */
  lemma StepIsFifo<T>(s: Session<T>, e: Event<T>)
    requires Inv(s)
    ensures Inv(Step(s, e).0)
    ensures Delivered([Step(s, e).1]) + Step(s, e).0.channel.valueQueue
         == s.channel.valueQueue + Produced(s.bodyDone, [e])
    ensures Step(s, e).1 == Some(End) ==> Step(s, e).0.channel.valueQueue == [] && Step(s, e).0.channel.isCompleted
  {
    var (s', o) := Step(s, e);
    assert Delivered([o]) == (if o.Some? && o.value.Next? then [o.value.value] else []);
    match e
    case Produce(v) =>
      assert Produced(s.bodyDone, [e]) == (if s.bodyDone then [] else [v]) + Produced(s.bodyDone, []);
    case BreakAndReturn =>
      assert Produced(s.bodyDone, [e]) == Produced(true, []);
    case BodyReturns =>
      assert Produced(s.bodyDone, [e]) == Produced(true, []);
    case BodyThrows(_) =>
      assert Produced(s.bodyDone, [e]) == Produced(true, []);
    case MoveNext =>
      assert Produced(s.bodyDone, [e]) == Produced(s.bodyDone, []);
    case Resume =>
      assert Produced(s.bodyDone, [e]) == Produced(s.bodyDone, []);
  }

  /** FIFO delivery over any interleaving: what the consumer has received,
      followed by what is still queued, is exactly what was queued at the start
      followed by everything the body returned, in order. */
  lemma {:induction false} RunIsFifo<T>(s: Session<T>, events: seq<Event<T>>)
    requires Inv(s)
    ensures Inv(Run(s, events).0)
    ensures Delivered(Run(s, events).1) + Run(s, events).0.channel.valueQueue
         == s.channel.valueQueue + Produced(s.bodyDone, events)
    decreases |events|
  {
    if events != [] {
      var e := events[0];
      var s1 := Step(s, e).0;
      var o := Step(s, e).1;
      var s2 := Run(s1, events[1..]).0;
      var os := Run(s1, events[1..]).1;
      assert Run(s, events) == (s2, [o] + os);
      StepIsFifo(s, e);
      RunIsFifo(s1, events[1..]);
      DeliveredAppend([o], os);
      ProducedCons(s.bodyDone, events);
      assert s1.bodyDone == ProducedDone(s.bodyDone, e);
      SplicePrefixes(Delivered([o]), Delivered(os), s.channel.valueQueue, s1.channel.valueQueue,
                     s2.channel.valueQueue, Produced(s.bodyDone, [e]), Produced(s1.bodyDone, events[1..]));
    }
  }

  function ProducedDone<T>(bodyDone: bool, e: Event<T>): bool
  {
    bodyDone || e.BreakAndReturn? || e.BodyReturns? || e.BodyThrows?
  }

  lemma ProducedCons<T>(bodyDone: bool, events: seq<Event<T>>)
    requires events != []
    ensures Produced(bodyDone, events)
         == Produced(bodyDone, [events[0]]) + Produced(ProducedDone(bodyDone, events[0]), events[1..])
  {
    var e := events[0];
    assert [e][1..] == [];
  }

  /** Once a false has been observed and the body has finished, the session
      never changes again and every later MoveNext yields false: no value can
      follow the end. */
  lemma {:induction false} EndIsTerminal<T>(s: Session<T>, events: seq<Event<T>>)
    requires Inv(s) && !s.suspended && s.channel.exception.None?
    requires s.channel.valueQueue == [] && s.channel.isCompleted
    ensures Run(s, events).0 == s
    ensures forall i :: 0 <= i < |events| ==> Run(s, events).1[i] in {None, Some(End)}
    decreases |events|
  {
    if events != [] {
      EndIsTerminal(Step(s, events[0]).0, events[1..]);
    }
  }

  /** The stored exception is sticky: once the body has thrown, every later
      MoveNext call throws it again, however often the consumer retries. */
  lemma {:induction false} ExceptionIsSticky<T>(s: Session<T>, events: seq<Event<T>>, err: Error)
    requires Inv(s) && s.channel.exception == Some(err)
    ensures Run(s, events).0.channel.exception == Some(err)
    ensures forall i :: 0 <= i < |events| && events[i].MoveNext? ==>
              Run(s, events).1[i] in {None, Some(Throws(err))}
    decreases |events|
  {
    if events != [] {
      var (s1, o) := Step(s, events[0]);
      StepIsFifo(s, events[0]);
      ExceptionIsSticky(s1, events[1..], err);
      var os := Run(s1, events[1..]).1;
      assert Run(s, events).1 == [o] + os;
      forall i | 0 <= i < |events| && events[i].MoveNext?
        ensures Run(s, events).1[i] in {None, Some(Throws(err))}
      {
        if i > 0 {
          assert events[1..][i - 1] == events[i];
        }
      }
    }
  }

  /** A producer exception reaches a consumer that is already waiting: its
      wait is faulted and resuming it throws that exception. */
  lemma ThrowWakesWaitingConsumer<T>(s: Session<T>, err: Error)
    requires Inv(s) && s.suspended && s.channel.nextSource == Some(Pending) && !s.bodyDone
    ensures Run(s, [BodyThrows(err), Resume]).1 == [None, Some(Throws(err))]
  {
    var s1 := Step(s, BodyThrows(err)).0;
    assert s1.channel.nextSource == Some(Faulted(err));
  }

  /** The builder's SetResult alone does not wake a waiting consumer: a body
      that returns without Break leaves the consumer suspended for good. */
  lemma {:induction false} ReturnWithoutBreakStrandsConsumer<T>(s: Session<T>, events: seq<Event<T>>)
    requires s.suspended && s.channel.nextSource == Some(Pending) && s.bodyDone
    ensures Run(s, events).0 == s
    ensures forall i :: 0 <= i < |events| ==> Run(s, events).1[i] == None
    decreases |events|
  {
    if events != [] {
      ReturnWithoutBreakStrandsConsumer(Step(s, events[0]).0, events[1..]);
    }
  }

  /** Running two stretches of events one after the other. */
  lemma {:induction false} RunAppend<T>(s: Session<T>, a: seq<Event<T>>, b: seq<Event<T>>)
    ensures var ra := Run(s, a);
            var rb := Run(ra.0, b);
            Run(s, a + b) == (rb.0, ra.1 + rb.1)
    decreases |a|
  {
    if a == [] {
      assert a + b == b;
      assert Run(s, b).1 == [] + Run(s, b).1;
    } else {
      assert (a + b)[0] == a[0];
      assert (a + b)[1..] == a[1..] + b;
      var (s1, o) := Step(s, a[0]);
      var ra' := Run(s1, a[1..]);
      var rb := Run(ra'.0, b);
      RunAppend(s1, a[1..], b);
      assert Run(s, a) == (ra'.0, [o] + ra'.1);
      assert Run(s, a + b) == (rb.0, [o] + (ra'.1 + rb.1));
      assert [o] + (ra'.1 + rb.1) == ([o] + ra'.1) + rb.1;
    }
  }

  /** A run of two events. */
  lemma RunTwo<T>(s: Session<T>, e1: Event<T>, e2: Event<T>)
    ensures var r1 := Step(s, e1);
            var r2 := Step(r1.0, e2);
            Run(s, [e1, e2]) == (r2.0, [r1.1, r2.1])
  {
    var tail: seq<Event<T>> := [e2];
    assert [e1, e2][0] == e1 && [e1, e2][1..] == tail && tail[0] == e2 && tail[1..] == [];
    var r1 := Step(s, e1);
    var r2 := Step(r1.0, e2);
    assert Run(r2.0, tail[1..]) == (r2.0, []);
    assert [r2.1] + [] == [r2.1];
    assert Run(r1.0, tail) == (r2.0, [r2.1]);
    assert [r1.1] + [r2.1] == [r1.1, r2.1];
  }

  /** A run of three events. */
  lemma RunThree<T>(s: Session<T>, e1: Event<T>, e2: Event<T>, e3: Event<T>)
    ensures var r1 := Step(s, e1);
            var r2 := Step(r1.0, e2);
            var r3 := Step(r2.0, e3);
            Run(s, [e1, e2, e3]) == (r3.0, [r1.1, r2.1, r3.1])
  {
    var r1 := Step(s, e1);
    RunTwo(r1.0, e2, e3);
    assert [e1, e2, e3][0] == e1 && [e1, e2, e3][1..] == [e2, e3];
    var rest := Run(r1.0, [e2, e3]);
    assert Run(s, [e1, e2, e3]) == (rest.0, [r1.1] + rest.1);
    assert [r1.1] + rest.1 == [r1.1, rest.1[0], rest.1[1]];
  }

  /** A consumer that waits on an empty queue is woken by the next Return and
      receives exactly that value. */
  lemma HandOff<T>(s: Session<T>, v: T)
    requires !s.suspended && !s.bodyDone && s.channel.exception.None?
    requires s.channel.valueQueue == [] && !s.channel.isCompleted
    ensures var r := Run(s, [MoveNext, Produce(v), Resume]);
            && r.1 == [None, None, Some(Next(v))]
            && r.0 == s.(channel := s.channel.(nextSource := Some(Done(true)), current := v))
  {
    RunThree(s, MoveNext, Produce(v), Resume);
  }

  /** A value returned before the consumer asks is delivered by the next
      MoveNext at once. */
  lemma QueuedThenPulled<T>(s: Session<T>, v: T)
    requires !s.suspended && !s.bodyDone && s.channel.exception.None? && s.channel.valueQueue == []
    ensures var r := Run(s, [Produce(v), MoveNext]);
            && r.1 == [None, Some(Next(v))]
            && r.0 == s.(channel := s.channel.(nextSource := ResolveIfAny(s.channel.nextSource, true), current := v))
  {
    RunTwo(s, Produce(v), MoveNext);
  }

  /** After Break, a MoveNext on the empty queue answers false. */
  lemma BreakThenPull<T>(s: Session<T>)
    requires !s.suspended && !s.bodyDone && s.channel.exception.None? && s.channel.valueQueue == []
    ensures var r := Run(s, [BreakAndReturn, MoveNext]);
            r.1 == [None, Some(End)] && r.0.channel.isCompleted
  {
    RunTwo(s, BreakAndReturn, MoveNext);
  }

  /** The trace of EnumerationAdvancesCorrectlyAndCompletes1, with the consumer
      waiting before the first two values: (true,v1), (true,v2), (true,v3),
      false, and IsCompleted afterwards. */
  lemma ConsumerFirstTrace<T>(v1: T, v2: T, v3: T, defaultValue: T)
    ensures var r := Run(Start(defaultValue), [MoveNext, Produce(v1), Resume, MoveNext, Produce(v2), Resume,
                                              Produce(v3), MoveNext, BreakAndReturn, MoveNext]);
            && r.1 == [None, None, Some(Next(v1)), None, None, Some(Next(v2)), None, Some(Next(v3)), None, Some(End)]
            && r.0.channel.isCompleted
  {
    var s0 := Start(defaultValue);
    var c1: seq<Event<T>> := [MoveNext, Produce(v1), Resume];
    var c2: seq<Event<T>> := [MoveNext, Produce(v2), Resume];
    var c3: seq<Event<T>> := [Produce(v3), MoveNext];
    var c4: seq<Event<T>> := [BreakAndReturn, MoveNext];
    HandOff(s0, v1);
    var s1 := Run(s0, c1).0;
    HandOff(s1, v2);
    var s2 := Run(s1, c2).0;
    QueuedThenPulled(s2, v3);
    var s3 := Run(s2, c3).0;
    BreakThenPull(s3);
    RunAppend(s2, c3, c4);
    RunAppend(s1, c2, c3 + c4);
    RunAppend(s0, c1, c2 + (c3 + c4));
    assert c1 + (c2 + (c3 + c4)) == [MoveNext, Produce(v1), Resume, MoveNext, Produce(v2), Resume,
                                      Produce(v3), MoveNext, BreakAndReturn, MoveNext];
  }

  /** The same test with the body running to its end before the first MoveNext:
      the queued values are still delivered, in order, before the false. */
  lemma ProducerFirstTrace<T>(v1: T, v2: T, v3: T, defaultValue: T)
    ensures var r := Run(Start(defaultValue), [Produce(v1), Produce(v2), Produce(v3), BreakAndReturn,
                                              MoveNext, MoveNext, MoveNext, MoveNext]);
            && r.1 == [None, None, None, None, Some(Next(v1)), Some(Next(v2)), Some(Next(v3)), Some(End)]
            && r.0.channel.isCompleted
  {
    var s0 := Start(defaultValue);
    var a: seq<Event<T>> := [Produce(v1), Produce(v2), Produce(v3), BreakAndReturn];
    var b: seq<Event<T>> := [MoveNext, MoveNext, MoveNext, MoveNext];
    RunTwo(s0, Produce(v1), Produce(v2));
    var s2 := Run(s0, [Produce(v1), Produce(v2)]).0;
    RunTwo(s2, Produce(v3), BreakAndReturn);
    var s4 := Run(s2, [Produce(v3), BreakAndReturn]).0;
    RunAppend(s0, [Produce(v1), Produce(v2)], [Produce(v3), BreakAndReturn]);
    assert [Produce(v1), Produce(v2)] + [Produce(v3), BreakAndReturn] == a;
    assert s4 == Session(State([v1, v2, v3], None, None, defaultValue, true), false, true);
    DrainFinished(s4);
    assert b == seq(3 + 1, _ => MoveNext);
    RunAppend(s0, a, b);
    assert a + b == [Produce(v1), Produce(v2), Produce(v3), BreakAndReturn, MoveNext, MoveNext, MoveNext, MoveNext];
  }

  /** Draining a finished sequence: each MoveNext delivers the next queued value,
      then a final one yields false. */
  function Drain<T>(s: Session<T>, n: nat): seq<Option<Observation<T>>>
  {
    Run(s, seq(n, _ => MoveNext)).1
  }

  lemma {:induction false} DrainFinished<T>(s: Session<T>)
    requires Inv(s) && !s.suspended && s.channel.exception.None? && s.channel.isCompleted
    ensures Drain(s, |s.channel.valueQueue| + 1)
         == seq(|s.channel.valueQueue|, i requires 0 <= i < |s.channel.valueQueue| => Some(Next(s.channel.valueQueue[i]))) + [Some(End)]
    ensures Run(s, seq(|s.channel.valueQueue| + 1, _ => MoveNext)).0.channel.isCompleted
    decreases |s.channel.valueQueue|
  {
    var q := s.channel.valueQueue;
    var pulls: seq<Event<T>> := seq(|q| + 1, _ => MoveNext);
    var (s1, o) := Step(s, MoveNext);
    if q == [] {
      assert pulls == [MoveNext];
    } else {
      assert o == Some(Next(q[0]));
      assert s1.channel.valueQueue == q[1..];
      DrainFinished(s1);
      assert pulls[1..] == seq(|q[1..]| + 1, _ => MoveNext);
    }
  }
}
