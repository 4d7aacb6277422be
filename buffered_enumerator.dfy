/** The buffered AsyncEnumerator<T> (src/AsyncEnumerator/AsyncEnumerator/AsyncEnumerator.cs).
    The body appends to a FIFO queue with Yield and never waits; MoveNext
    dequeues, and waits on `_nextSource` only while the queue is empty and the
    enumerator is not completed. There is no stored exception: the builder's
    SetException only sets IsCompleted. */
module BufferedEnumerator {
  import opened Tasks

  /** The fields of the buffered AsyncEnumerator<T>: `_valueQueue`,
      `_nextSource`, `Current`, `IsCompleted` and `Result`. */
  datatype State<T> = State(
    valueQueue: seq<T>,
    nextSource: Option<Cell>,
    current: T,
    isCompleted: bool,
    result: T)
  {
    /** MoveNext up to `await _nextSource.Task`: a queued value is delivered at
        once, a completed empty enumerator answers false at once, and otherwise
        a fresh wait is installed (the Pending result). */
    function MoveNextStart(): (r: (State<T>, Cell))
      ensures r.1 == Done(true) <==> valueQueue != []
      ensures r.1 == Done(true) ==> [r.0.current] + r.0.valueQueue == valueQueue
      ensures r.1 == Done(false) <==> valueQueue == [] && isCompleted
      ensures r.1 == Pending <==> valueQueue == [] && !isCompleted
      ensures r.1 == Pending ==> r.0 == this.(nextSource := Some(Pending))
      ensures r.1 != Pending ==> r.0.nextSource == nextSource
      ensures r.1 != Done(true) ==> r.0.current == current && r.0.valueQueue == valueQueue
      ensures r.0.isCompleted == isCompleted && r.0.result == result
    {
      if valueQueue != [] then (this.(valueQueue := valueQueue[1..], current := valueQueue[0]), Done(true))
      else if isCompleted then (this, Done(false))
      else (this.(nextSource := Some(Pending)), Pending)
    }

    /** MoveNext after the wait: the head of the queue if there is one,
        otherwise false when completed and true, with Current unchanged, when
        not. */
    function MoveNextResume(): (r: (State<T>, bool))
      ensures valueQueue != [] ==> r.1 && [r.0.current] + r.0.valueQueue == valueQueue
      ensures valueQueue == [] ==> r == (this, !isCompleted)
      ensures r.0.nextSource == nextSource && r.0.isCompleted == isCompleted && r.0.result == result
    {
      if valueQueue != [] then (this.(valueQueue := valueQueue[1..], current := valueQueue[0]), true)
      else (this, !isCompleted)
    }

    /** The body's Yield(value): appends at the tail and wakes a waiting
        consumer with true; it never waits. */
    function Yield(value: T): (r: State<T>)
      ensures r.valueQueue == valueQueue + [value]
      ensures r.nextSource == ResolveIfAny(nextSource, true)
      ensures r.current == current && r.isCompleted == isCompleted && r.result == result
    {
      this.(valueQueue := valueQueue + [value], nextSource := ResolveIfAny(nextSource, true))
    }

    /** The body's YieldReturn(): marks the enumerator completed, wakes a
        waiting consumer with false and returns default(T). */
    function YieldReturn(defaultValue: T): (r: (State<T>, T))
      ensures r.0.isCompleted && r.1 == defaultValue
      ensures r.0.nextSource == ResolveIfAny(nextSource, false)
      ensures r.0.valueQueue == valueQueue && r.0.current == current && r.0.result == result
    {
      (this.(isCompleted := true, nextSource := ResolveIfAny(nextSource, false)), defaultValue)
    }

    /** The builder's SetResult(value): records Result and sets IsCompleted;
        no waiting consumer is woken. */
    function SetResult(value: T): (r: State<T>)
      ensures r.result == value && r.isCompleted
      ensures r.(result := result, isCompleted := isCompleted) == this
    {
      this.(result := value, isCompleted := true)
    }

    /** The builder's SetException: only IsCompleted is set; the exception is
        dropped and a waiting consumer is not woken. */
    function SetException(e: Error): (r: State<T>)
      ensures r.isCompleted && r.(isCompleted := isCompleted) == this
    {
      this.(isCompleted := true)
    }

    function AwaiterIsCompleted(): (b: bool)
      ensures b == isCompleted
    {
      isCompleted
    }

    /** The awaiter's GetResult returns Result. */
    function AwaiterGetResult(): (v: T)
      ensures v == result
    {
      result
    }
  }

  function Initial<T>(defaultValue: T): State<T>
  {
    State([], None, defaultValue, false, defaultValue)
  }

  /** The buffered AsyncEnumerator<T> object, its fields updated in place. */
  class AsyncEnumerator<T> {
    var valueQueue: seq<T>
    var nextSource: Option<Cell>
    var current: T
    var isCompleted: bool
    var result: T
    /** default(T) */
    const defaultValue: T

    function Model(): State<T>
      reads this
    {
      State(valueQueue, nextSource, current, isCompleted, result)
    }

    constructor (defaultValue: T)
      ensures Model() == Initial(defaultValue) && this.defaultValue == defaultValue
    {
      this.defaultValue := defaultValue;
      valueQueue, nextSource, current, isCompleted, result := [], None, defaultValue, false, defaultValue;
    }

    method MoveNextStart() returns (task: Cell)
      modifies this
      ensures (Model(), task) == old(Model()).MoveNextStart()
    {
      if valueQueue != [] {
        current := valueQueue[0];
        valueQueue := valueQueue[1..];
        return Done(true);
      }
      if isCompleted {
        return Done(false);
      }
      nextSource := Some(Pending);
      task := Pending;
    }

    method MoveNextResume() returns (b: bool)
      modifies this
      ensures (Model(), b) == old(Model()).MoveNextResume()
    {
      if valueQueue != [] {
        current := valueQueue[0];
        valueQueue := valueQueue[1..];
        return true;
      }
      b := !isCompleted;
    }

    method Yield(value: T)
      modifies this
      ensures Model() == old(Model()).Yield(value)
    {
      valueQueue := valueQueue + [value];
      nextSource := ResolveIfAny(nextSource, true);
    }

    method YieldReturn() returns (d: T)
      modifies this
      ensures (Model(), d) == old(Model()).YieldReturn(defaultValue)
    {
      isCompleted := true;
      nextSource := ResolveIfAny(nextSource, false);
      d := defaultValue;
    }

    /** AsyncEnumeratorMethodBuilder.SetResult */
    method SetResult(value: T)
      modifies this
      ensures Model() == old(Model()).SetResult(value)
    {
      result := value;
      isCompleted := true;
    }

    /** AsyncEnumeratorMethodBuilder.SetException */
    method SetException(e: Error)
      modifies this
      ensures Model() == old(Model()).SetException(e)
    {
      isCompleted := true;
    }

    method AwaiterGetResult() returns (v: T)
      ensures v == Model().AwaiterGetResult()
    {
      v := result;
    }
  }

  // ---------------------------------------------------------------------------
  // Sessions: the body runs on the thread pool (the bootstrap awaiter starts
  // it with Task.Run), so its steps interleave with the consumer's arbitrarily.

  datatype Event<T> =
    | MoveNext                  // the consumer calls MoveNext
    | Resume                    // the consumer's `await _nextSource.Task` completes
    | Produce(value: T)         // the body calls Yield(value)
    | YieldReturnAndReturn      // the body executes `return iter.YieldReturn();`
    | BodyReturns(value: T)     // the body returns a value without YieldReturn
    | BodyThrows(error: Error)  // the body throws

  datatype Session<T> = Session(channel: State<T>, suspended: bool, bodyDone: bool)

  function Start<T>(defaultValue: T): Session<T>
  {
    Session(Initial(defaultValue), false, false)
  }

  function Ends<T>(e: Event<T>): bool
  {
    e.YieldReturnAndReturn? || e.BodyReturns? || e.BodyThrows?
  }

  /** One event; one that cannot happen in the current session changes nothing.
      The second component is what the consumer observes, if this event
      completes a MoveNext. */
  function Step<T>(s: Session<T>, e: Event<T>, defaultValue: T): (r: (Session<T>, Option<Observation<T>>))
    ensures r.0.bodyDone == (s.bodyDone || Ends(e))
    ensures r.1.Some? ==> e.MoveNext? || e.Resume?
  {
    match e
    case MoveNext =>
      if s.suspended then (s, None)
      else
        var (c, task) := s.channel.MoveNextStart();
        if task.Pending? then (s.(channel := c, suspended := true), None)
        else (s.(channel := c), Some(Observe(task, c.current)))
    case Resume =>
      if s.suspended && s.channel.nextSource.Some? && s.channel.nextSource.value.IsResolved() then
        var (c, b) := s.channel.MoveNextResume();
        (s.(channel := c, suspended := false), Some(if b then Next(c.current) else End))
      else (s, None)
    case Produce(v) =>
      if s.bodyDone then (s, None) else (s.(channel := s.channel.Yield(v)), None)
    case YieldReturnAndReturn =>
      if s.bodyDone then (s, None)
      else
        var (c, d) := s.channel.YieldReturn(defaultValue);
        (s.(channel := c.SetResult(d), bodyDone := true), None)
    case BodyReturns(v) =>
      if s.bodyDone then (s, None) else (s.(channel := s.channel.SetResult(v), bodyDone := true), None)
    case BodyThrows(err) =>
      if s.bodyDone then (s, None) else (s.(channel := s.channel.SetException(err), bodyDone := true), None)
  }

  function Run<T>(s: Session<T>, events: seq<Event<T>>, defaultValue: T): (r: (Session<T>, seq<Option<Observation<T>>>))
    ensures |r.1| == |events|
    decreases |events|
  {
    if events == [] then (s, [])
    else
      var first := Step(s, events[0], defaultValue);
      var rest := Run(first.0, events[1..], defaultValue);
      (rest.0, [first.1] + rest.1)
  }

  /** The values the body hands over with Yield, in order, up to its end. */
  function Produced<T>(bodyDone: bool, events: seq<Event<T>>): seq<T>
    decreases |events|
  {
    if events == [] then []
    else
      match events[0]
      case Produce(v) => (if bodyDone then [] else [v]) + Produced(bodyDone, events[1..])
      case MoveNext => Produced(bodyDone, events[1..])
      case Resume => Produced(bodyDone, events[1..])
      case _ => Produced(true, events[1..])
  }

  lemma ProducedCons<T>(bodyDone: bool, events: seq<Event<T>>)
    requires events != []
    ensures Produced(bodyDone, events)
         == Produced(bodyDone, [events[0]]) + Produced(bodyDone || Ends(events[0]), events[1..])
  {
    assert [events[0]][1..] == [];
  }

  /** What every reachable session satisfies. A suspended consumer has a wait
      cell; one woken with true finds a queued value, one woken with false a
      completed enumerator; completion only comes from the body's end; no wait
      is ever faulted. */
  predicate Inv<T>(s: Session<T>)
  {
    && (s.suspended ==> s.channel.nextSource.Some?)
    && (s.suspended && s.channel.nextSource == Some(Done(true)) ==> s.channel.valueQueue != [])
    && (s.suspended && s.channel.nextSource == Some(Done(false)) ==> s.channel.isCompleted)
    && (s.channel.nextSource.Some? ==> !s.channel.nextSource.value.Faulted?)
    && (s.channel.isCompleted ==> s.bodyDone)
  }

  lemma StartSatisfiesInv<T>(defaultValue: T)
    ensures Inv(Start(defaultValue))
  {
  }

  /** One step keeps the invariant and moves values from the body to the
      consumer without loss, duplication or reordering; a resumed MoveNext never
      answers true without a value; false is observed only once the queue is
      empty and the enumerator completed. */
  lemma StepIsFifo<T>(s: Session<T>, e: Event<T>, defaultValue: T)
    requires Inv(s)
    ensures Inv(Step(s, e, defaultValue).0)
    ensures Delivered([Step(s, e, defaultValue).1]) + Step(s, e, defaultValue).0.channel.valueQueue
         == s.channel.valueQueue + Produced(s.bodyDone, [e])
    ensures e.Resume? && Step(s, e, defaultValue).1.Some? && Step(s, e, defaultValue).1.value.Next? ==> s.channel.valueQueue != []
    ensures Step(s, e, defaultValue).1 == Some(End) ==>
              Step(s, e, defaultValue).0.channel.valueQueue == [] && Step(s, e, defaultValue).0.channel.isCompleted
  {
    var (s', o) := Step(s, e, defaultValue);
    assert Delivered([o]) == (if o.Some? && o.value.Next? then [o.value.value] else []);
    match e
    case Produce(v) =>
      assert Produced(s.bodyDone, [e]) == (if s.bodyDone then [] else [v]) + Produced(s.bodyDone, []);
    case MoveNext =>
      assert Produced(s.bodyDone, [e]) == Produced(s.bodyDone, []);
    case Resume =>
      assert Produced(s.bodyDone, [e]) == Produced(s.bodyDone, []);
    case _ =>
      assert Produced(s.bodyDone, [e]) == Produced(true, []);
  }

  /** FIFO delivery over any interleaving: what the consumer has received,
      followed by what is still queued, is what was queued at the start
      followed by everything the body yielded, in order. */
  lemma {:induction false} RunIsFifo<T>(s: Session<T>, events: seq<Event<T>>, defaultValue: T)
    requires Inv(s)
    ensures Inv(Run(s, events, defaultValue).0)
    ensures Delivered(Run(s, events, defaultValue).1) + Run(s, events, defaultValue).0.channel.valueQueue
         == s.channel.valueQueue + Produced(s.bodyDone, events)
    decreases |events|
  {
    if events != [] {
      var e := events[0];
      var s1 := Step(s, e, defaultValue).0;
      var o := Step(s, e, defaultValue).1;
      var s2 := Run(s1, events[1..], defaultValue).0;
      var os := Run(s1, events[1..], defaultValue).1;
      assert Run(s, events, defaultValue) == (s2, [o] + os);
      StepIsFifo(s, e, defaultValue);
      RunIsFifo(s1, events[1..], defaultValue);
      DeliveredAppend([o], os);
      ProducedCons(s.bodyDone, events);
      SplicePrefixes(Delivered([o]), Delivered(os), s.channel.valueQueue, s1.channel.valueQueue,
                     s2.channel.valueQueue, Produced(s.bodyDone, [e]), Produced(s1.bodyDone, events[1..]));
    }
  }

  /** Once the queue is drained, the enumerator completed and the consumer not
      waiting, nothing changes any more and every MoveNext answers false. */
  lemma {:induction false} EndIsTerminal<T>(s: Session<T>, events: seq<Event<T>>, defaultValue: T)
    requires Inv(s) && !s.suspended && s.channel.valueQueue == [] && s.channel.isCompleted
    ensures Run(s, events, defaultValue).0 == s
    ensures forall i :: 0 <= i < |events| ==> Run(s, events, defaultValue).1[i] in {None, Some(End)}
    decreases |events|
  {
    if events != [] {
      EndIsTerminal(Step(s, events[0], defaultValue).0, events[1..], defaultValue);
    }
  }

  /** A body that ends without YieldReturn, by returning a value or by
      throwing, while the consumer waits on an unresolved `nextSource`, never
      wakes it: the session is stuck, whatever happens next. */
  lemma {:induction false} EndWithoutYieldReturnStrandsConsumer<T>(s: Session<T>, events: seq<Event<T>>, defaultValue: T)
    requires s.suspended && s.channel.nextSource == Some(Pending) && s.bodyDone
    ensures Run(s, events, defaultValue).0 == s
    ensures forall i :: 0 <= i < |events| ==> Run(s, events, defaultValue).1[i] == None
    decreases |events|
  {
    if events != [] {
      EndWithoutYieldReturnStrandsConsumer(Step(s, events[0], defaultValue).0, events[1..], defaultValue);
    }
  }

  /** A body exception is lost: thrown while the consumer waits, it strands
      the consumer; thrown with nothing queued and no consumer waiting, the
      next MoveNext answers a plain false. */
  lemma ThrowIsLost<T>(s: Session<T>, err: Error, defaultValue: T)
    requires Inv(s) && !s.bodyDone
    ensures var s1 := Step(s, BodyThrows(err), defaultValue).0;
            s.suspended && s.channel.nextSource == Some(Pending) ==>
              s1.suspended && s1.channel.nextSource == Some(Pending) && s1.bodyDone
    ensures !s.suspended && s.channel.valueQueue == [] ==>
              Run(s, [BodyThrows(err), MoveNext], defaultValue).1 == [None, Some(End)]
  {
  }

  /** Test3 and Test4 of the cooperative tests, run against this enumerator
      with the body finishing before the first MoveNext: the three values in order, then false,
      IsCompleted, and the awaiter's GetResult gives default(T). */
  lemma ProducerFirstTrace<T>(v1: T, v2: T, v3: T, defaultValue: T)
    ensures var r := Run(Start(defaultValue), [Produce(v1), Produce(v2), Produce(v3), YieldReturnAndReturn,
                                              MoveNext, MoveNext, MoveNext, MoveNext], defaultValue);
            && r.1 == [None, None, None, None, Some(Next(v1)), Some(Next(v2)), Some(Next(v3)), Some(End)]
            && r.0.channel.isCompleted && r.0.channel.AwaiterGetResult() == defaultValue
  {
    var s0 := Start(defaultValue);
    var a: seq<Event<T>> := [Produce(v1), Produce(v2), Produce(v3), YieldReturnAndReturn];
    var b: seq<Event<T>> := [MoveNext, MoveNext, MoveNext, MoveNext];
    ProduceAhead(s0, v1, v2, v3, defaultValue);
    DrainThree(Run(s0, a, defaultValue).0, v1, v2, v3, defaultValue);
    RunAppend(s0, a, b, defaultValue);
    assert a + b == [Produce(v1), Produce(v2), Produce(v3), YieldReturnAndReturn,
                     MoveNext, MoveNext, MoveNext, MoveNext];
  }

  /** A body that yields three values and returns YieldReturn() while nobody
      waits leaves them queued in order, with the enumerator completed. */
  lemma ProduceAhead<T>(s: Session<T>, v1: T, v2: T, v3: T, defaultValue: T)
    requires !s.suspended && !s.bodyDone && s.channel.valueQueue == [] && s.channel.nextSource.None?
    ensures var r := Run(s, [Produce(v1), Produce(v2), Produce(v3), YieldReturnAndReturn], defaultValue);
            && r.1 == [None, None, None, None]
            && !r.0.suspended && r.0.channel.valueQueue == [v1, v2, v3] && r.0.channel.isCompleted && r.0.channel.result == defaultValue
  {
    var a: seq<Event<T>> := [Produce(v1), Produce(v2)];
    var b: seq<Event<T>> := [Produce(v3), YieldReturnAndReturn];
    RunTwo(s, Produce(v1), Produce(v2), defaultValue);
    RunTwo(Run(s, a, defaultValue).0, Produce(v3), YieldReturnAndReturn, defaultValue);
    RunAppend(s, a, b, defaultValue);
    assert a + b == [Produce(v1), Produce(v2), Produce(v3), YieldReturnAndReturn];
  }

  /** Four MoveNext calls on a completed enumerator holding three values
      deliver them in order and then false, without waiting. */
  lemma DrainThree<T>(s: Session<T>, v1: T, v2: T, v3: T, defaultValue: T)
    requires !s.suspended && s.channel.valueQueue == [v1, v2, v3] && s.channel.isCompleted
    ensures var r := Run(s, [MoveNext, MoveNext, MoveNext, MoveNext], defaultValue);
            && r.1 == [Some(Next(v1)), Some(Next(v2)), Some(Next(v3)), Some(End)]
            && r.0.channel.isCompleted && r.0.channel.result == s.channel.result
  {
    var c: seq<Event<T>> := [MoveNext, MoveNext];
    RunTwo(s, MoveNext, MoveNext, defaultValue);
    RunTwo(Run(s, c, defaultValue).0, MoveNext, MoveNext, defaultValue);
    RunAppend(s, c, c, defaultValue);
    assert c + c == [MoveNext, MoveNext, MoveNext, MoveNext];
  }

  /** A run of two events. */
  lemma RunTwo<T>(s: Session<T>, e1: Event<T>, e2: Event<T>, defaultValue: T)
    ensures var r1 := Step(s, e1, defaultValue);
            var r2 := Step(r1.0, e2, defaultValue);
            Run(s, [e1, e2], defaultValue) == (r2.0, [r1.1, r2.1])
  {
    var tail: seq<Event<T>> := [e2];
    assert [e1, e2][0] == e1 && [e1, e2][1..] == tail && tail[0] == e2 && tail[1..] == [];
    var r1 := Step(s, e1, defaultValue);
    var r2 := Step(r1.0, e2, defaultValue);
    assert Run(r2.0, tail[1..], defaultValue) == (r2.0, []);
    assert [r2.1] + [] == [r2.1];
    assert Run(r1.0, tail, defaultValue) == (r2.0, [r2.1]);
    assert [r1.1] + [r2.1] == [r1.1, r2.1];
  }

  /** Running two stretches of events one after the other. */
  lemma {:induction false} RunAppend<T>(s: Session<T>, a: seq<Event<T>>, b: seq<Event<T>>, defaultValue: T)
    ensures var ra := Run(s, a, defaultValue);
            var rb := Run(ra.0, b, defaultValue);
            Run(s, a + b, defaultValue) == (rb.0, ra.1 + rb.1)
    decreases |a|
  {
    if a == [] {
      assert a + b == b;
      assert Run(s, b, defaultValue).1 == [] + Run(s, b, defaultValue).1;
    } else {
      assert (a + b)[0] == a[0];
      assert (a + b)[1..] == a[1..] + b;
      var (s1, o) := Step(s, a[0], defaultValue);
      var ra' := Run(s1, a[1..], defaultValue);
      var rb := Run(ra'.0, b, defaultValue);
      RunAppend(s1, a[1..], b, defaultValue);
      assert Run(s, a, defaultValue) == (ra'.0, [o] + ra'.1);
      assert Run(s, a + b, defaultValue) == (rb.0, [o] + (ra'.1 + rb.1));
      assert [o] + (ra'.1 + rb.1) == ([o] + ra'.1) + rb.1;
    }
  }

  /** A consumer that waits before each value: MoveNext suspends on an empty
      queue, the body's Yield wakes it, and the resumed MoveNext delivers
      exactly that value, leaving the queue empty again. */
  lemma HandOff<T>(s: Session<T>, v: T, defaultValue: T)
    requires !s.suspended && !s.bodyDone && s.channel.valueQueue == [] && !s.channel.isCompleted
    ensures var r := Run(s, [MoveNext, Produce(v), Resume], defaultValue);
            && r.1 == [None, None, Some(Next(v))]
            && r.0 == s.(channel := s.channel.(nextSource := Some(Done(true)), current := v))
  {
    var e3: seq<Event<T>> := [Resume];
    var e2: seq<Event<T>> := [Produce(v)] + e3;
    var e1: seq<Event<T>> := [MoveNext] + e2;
    assert e1 == [MoveNext, Produce(v), Resume];
    var (s1, o1) := Step(s, MoveNext, defaultValue);
    var (s2, o2) := Step(s1, Produce(v), defaultValue);
    var (s3, o3) := Step(s2, Resume, defaultValue);
    assert s2.channel.valueQueue == [v] && s2.suspended;
    assert o1 == None && o2 == None && o3 == Some(Next(v));
    assert e3[1..] == [] && e2[1..] == e3 && e1[1..] == e2;
    assert Run(s2, e3, defaultValue) == (s3, [o3] + []);
    assert Run(s1, e2, defaultValue) == (s3, [o2] + ([o3] + []));
    assert Run(s, e1, defaultValue) == (s3, [o1] + ([o2] + ([o3] + [])));
    assert [o1] + ([o2] + ([o3] + [])) == [None, None, Some(Next(v))];
  }

  /** The test trace with the consumer pulling before each value is yielded:
      the three values in order, then false, and IsCompleted. */
  lemma ConsumerFirstTrace<T>(v1: T, v2: T, v3: T, defaultValue: T)
    ensures var r := Run(Start(defaultValue), [MoveNext, Produce(v1), Resume, MoveNext, Produce(v2), Resume,
                                              MoveNext, Produce(v3), Resume, MoveNext, YieldReturnAndReturn, Resume], defaultValue);
            && r.1 == [None, None, Some(Next(v1)), None, None, Some(Next(v2)),
                       None, None, Some(Next(v3)), None, None, Some(End)]
            && r.0.channel.isCompleted
  {
    var s0 := Start(defaultValue);
    var c1: seq<Event<T>> := [MoveNext, Produce(v1), Resume];
    var c2: seq<Event<T>> := [MoveNext, Produce(v2), Resume];
    var c3: seq<Event<T>> := [MoveNext, Produce(v3), Resume];
    var c4: seq<Event<T>> := [MoveNext, YieldReturnAndReturn, Resume];
    HandOff(s0, v1, defaultValue);
    var s1 := Run(s0, c1, defaultValue).0;
    HandOff(s1, v2, defaultValue);
    var s2 := Run(s1, c2, defaultValue).0;
    HandOff(s2, v3, defaultValue);
    var s3 := Run(s2, c3, defaultValue).0;
    LastHandOff(s3, defaultValue);
    RunAppend(s2, c3, c4, defaultValue);
    RunAppend(s1, c2, c3 + c4, defaultValue);
    RunAppend(s0, c1, c2 + (c3 + c4), defaultValue);
    assert c1 + (c2 + (c3 + c4)) == [MoveNext, Produce(v1), Resume, MoveNext, Produce(v2), Resume,
                                      MoveNext, Produce(v3), Resume, MoveNext, YieldReturnAndReturn, Resume];
  }

  /** A consumer waiting on an empty queue is woken with false by YieldReturn. */
  lemma LastHandOff<T>(s: Session<T>, defaultValue: T)
    requires !s.suspended && !s.bodyDone && s.channel.valueQueue == [] && !s.channel.isCompleted
    ensures var r := Run(s, [MoveNext, YieldReturnAndReturn, Resume], defaultValue);
            r.1 == [None, None, Some(End)] && r.0.channel.isCompleted && r.0.channel.result == defaultValue
  {
    var e3: seq<Event<T>> := [Resume];
    var e2: seq<Event<T>> := [YieldReturnAndReturn] + e3;
    var e1: seq<Event<T>> := [MoveNext] + e2;
    assert e1 == [MoveNext, YieldReturnAndReturn, Resume];
    var (s1, o1) := Step(s, MoveNext, defaultValue);
    var (s2, o2) := Step(s1, YieldReturnAndReturn, defaultValue);
    var (s3, o3) := Step(s2, Resume, defaultValue);
    assert s2.suspended && s2.channel.nextSource == Some(Done(false)) && s2.channel.valueQueue == [];
    assert o1 == None && o2 == None && o3 == Some(End);
    assert e3[1..] == [] && e2[1..] == e3 && e1[1..] == e2;
    assert Run(s2, e3, defaultValue) == (s3, [o3] + []);
    assert Run(s1, e2, defaultValue) == (s3, [o2] + ([o3] + []));
    assert Run(s, e1, defaultValue) == (s3, [o1] + ([o2] + ([o3] + [])));
    assert [o1] + ([o2] + ([o3] + [])) == [None, None, Some(End)];
  }
}
