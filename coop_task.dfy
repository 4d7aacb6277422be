/** CoopTask (src/AsyncEnumerator/CoopTask.cs): the rendezvous protocol
    without a payload. The body's `await yield.Yield()` waits until the
    consumer's next MoveNext releases it; the consumer waits until the body
    yields again or finishes. A body exception is kept and rethrown by every
    later MoveNext, by GetAwaiter and by the awaiter's GetResult. */
module CoopTaskChannel {
  import opened Tasks

  /** The fields of a CoopTask: `_isStarted`, `_nextSource`, `_yieldSource`,
      `_exception` and `IsCompleted`. */
  datatype State = State(
    isStarted: bool,
    nextSource: Option<Cell>,
    yieldSource: Option<Cell>,
    exception: Option<Error>,
    isCompleted: bool)
  {
    /** MoveNext: the same protocol as the rendezvous enumerator. */
    function MoveNext(): (r: (State, Call<Cell>))
      ensures exception.Some? ==> r == (this, Threw(exception.value))
      ensures exception.None? && !isStarted ==> r == (this.(isStarted := true), Returned(Done(true)))
      ensures r.1 == Returned(Pending) <==> exception.None? && isStarted && yieldSource.Some?
      ensures r.1 == Returned(Done(true)) <==> exception.None? && (!isStarted || yieldSource.None?)
      ensures exception.None? && isStarted ==>
                r.0 == this.(nextSource := Some(Pending), yieldSource := ResolveIfAny(yieldSource, true))
      ensures r.0.exception == exception && r.0.isCompleted == isCompleted
    {
      if exception.Some? then (this, Threw(exception.value))
      else if !isStarted then (this.(isStarted := true), Returned(Done(true)))
      else
        var s := this.(nextSource := Some(Pending), yieldSource := ResolveIfAny(yieldSource, true));
        if yieldSource.None? then (s, Returned(Done(true))) else (s, Returned(Pending))
    }

    /** The body's Yield(): installs a fresh `yieldSource` for the body to await
        and wakes a waiting consumer with true. */
    function Yield(): (r: State)
      ensures r.yieldSource == Some(Pending)
      ensures r.nextSource == ResolveIfAny(nextSource, true)
      ensures r.isStarted == isStarted && r.exception == exception && r.isCompleted == isCompleted
    {
      this.(yieldSource := Some(Pending), nextSource := ResolveIfAny(nextSource, true))
    }

    /** The body's Break(): resolves `nextSource` with false; with no consumer
        wait yet, the unchecked dereference throws NullReferenceException. */
    function Break(): (r: (State, Call<()>))
      ensures nextSource.None? ==> r == (this, Threw(NullReference))
      ensures nextSource.Some? ==> r == (this.(nextSource := Some(TrySetResult(nextSource.value, false))), Returned(()))
    {
      if nextSource.None? then (this, Threw(NullReference))
      else (this.(nextSource := Some(TrySetResult(nextSource.value, false))), Returned(()))
    }

    /** GetAwaiter rethrows the stored exception before creating an awaiter. */
    function GetAwaiter(): (r: Call<()>)
      ensures r.Threw? <==> exception.Some?
      ensures r.Threw? ==> r.error == exception.value
    {
      if exception.Some? then Threw(exception.value) else Returned(())
    }

    /** SetException, also the builder's SetException: stores the exception and
        faults a waiting consumer's task. */
    function SetException(e: Error): (r: State)
      ensures r.exception == Some(e) && r.nextSource == FaultIfAny(nextSource, e)
      ensures r.(exception := exception, nextSource := nextSource) == this
    {
      this.(exception := Some(e), nextSource := FaultIfAny(nextSource, e))
    }

    /** SetCompletion, the builder's SetResult: sets IsCompleted first, then
        resolves `nextSource` with false through an unchecked dereference, so
        with no consumer wait it throws after IsCompleted is already set. */
    function SetCompletion(): (r: (State, Call<()>))
      ensures r.0.isCompleted
      ensures nextSource.None? ==> r == (this.(isCompleted := true), Threw(NullReference))
      ensures nextSource.Some? ==> r.1 == Returned(()) && r.0.nextSource == Some(TrySetResult(nextSource.value, false))
      ensures r.0.(isCompleted := isCompleted, nextSource := nextSource) == this
    {
      var s := this.(isCompleted := true);
      if nextSource.None? then (s, Threw(NullReference))
      else (s.(nextSource := Some(TrySetResult(nextSource.value, false))), Returned(()))
    }

    /** The awaiter's IsCompleted mirrors the task's. */
    function AwaiterIsCompleted(): (b: bool)
      ensures b == isCompleted
    {
      isCompleted
    }

    /** The awaiter's GetResult rethrows the stored exception. */
    function AwaiterGetResult(): (r: Call<()>)
      ensures r.Threw? <==> exception.Some?
      ensures r.Threw? ==> r.error == exception.value
    {
      GetAwaiter()
    }
  }

  const Initial := State(false, None, None, None, false)

  /** One-shot resolution: after Break has answered the consumer's wait with
      false, the completion that follows cannot change it. */
  lemma BreakThenCompletionKeepsFalse(s: State)
    requires s.nextSource == Some(Pending)
    ensures s.Break().1 == Returned(())
    ensures var r := s.Break().0.SetCompletion();
            r.1 == Returned(()) && r.0.nextSource == Some(Done(false)) && r.0.isCompleted
  {
  }

  /** The CoopTask object, its fields updated in place. */
  class CoopTask {
    var isStarted: bool
    var nextSource: Option<Cell>
    var yieldSource: Option<Cell>
    var exception: Option<Error>
    var isCompleted: bool

    function Model(): State
      reads this
    {
      State(isStarted, nextSource, yieldSource, exception, isCompleted)
    }

    constructor ()
      ensures Model() == Initial
    {
      isStarted, nextSource, yieldSource, exception, isCompleted := false, None, None, None, false;
    }

    method MoveNext() returns (r: Call<Cell>)
      modifies this
      ensures (Model(), r) == old(Model()).MoveNext()
    {
      if exception.Some? {
        return Threw(exception.value);
      }
      if !isStarted {
        isStarted := true;
        return Returned(Done(true));
      }
      nextSource := Some(Pending);
      var hadYield := yieldSource.Some?;
      yieldSource := ResolveIfAny(yieldSource, true);
      if !hadYield {
        return Returned(Done(true));
      }
      r := Returned(Pending);
    }

    method Yield()
      modifies this
      ensures Model() == old(Model()).Yield()
    {
      yieldSource := Some(Pending);
      nextSource := ResolveIfAny(nextSource, true);
    }

    method Break() returns (r: Call<()>)
      modifies this
      ensures (Model(), r) == old(Model()).Break()
    {
      if nextSource.None? {
        return Threw(NullReference);
      }
      nextSource := Some(TrySetResult(nextSource.value, false));
      r := Returned(());
    }

    method GetAwaiter() returns (r: Call<()>)
      ensures r == Model().GetAwaiter()
    {
      if exception.Some? {
        return Threw(exception.value);
      }
      r := Returned(());
    }

    method SetException(e: Error)
      modifies this
      ensures Model() == old(Model()).SetException(e)
    {
      exception := Some(e);
      nextSource := FaultIfAny(nextSource, e);
    }

    /** SetCompletion, called by CoopTaskMethodBuilder.SetResult. */
    method SetCompletion() returns (r: Call<()>)
      modifies this
      ensures (Model(), r) == old(Model()).SetCompletion()
    {
      isCompleted := true;
      if nextSource.None? {
        return Threw(NullReference);
      }
      nextSource := Some(TrySetResult(nextSource.value, false));
      r := Returned(());
    }
  }

  // ---------------------------------------------------------------------------
  // Sessions, as for the rendezvous enumerator: the body starts inside the call
  // that creates the CoopTask and runs until it first waits; afterwards it runs
  // one segment each time a MoveNext releases its `yieldSource`.

  /** How the body ends after its Yields: by falling off the end, by calling
      Break and then falling off the end, or by throwing. */
  datatype Ending = Complete | BreakThenComplete | Throw(error: Error)

  /** A body: `yieldCount` calls of `await yield.Yield()`, then its ending. */
  datatype Body = Body(yieldCount: nat, ending: Ending)

  datatype Producer = Suspended(next: nat) | Finished

  datatype Session = Session(channel: State, producer: Producer)

  /** The builder's SetResult. An exception from it leaves the state machine,
      because the compiler calls SetResult outside the body's try block; the
      second component is that exception. */
  function Finish(c: State): (r: (State, Option<Error>))
    ensures r.0.isCompleted
    ensures r.1.Some? <==> c.nextSource.None?
  {
    match c.SetCompletion()
    case (c1, Threw(e)) => (c1, Some(e))
    case (c1, Returned(_)) => (c1, None)
  }

  /** The body's segment from its `k`-th wait, and any exception that escapes
      the state machine. An exception thrown inside the body, including the
      one Break throws, goes to the builder's SetException. */
  function Segment(c: State, body: Body, k: nat): (r: (Session, Option<Error>))
    ensures k < body.yieldCount ==> r.0.producer == Suspended(k + 1) && r.1.None?
    ensures k >= body.yieldCount ==> r.0.producer == Finished
    ensures c.nextSource.Some? ==> r.1.None?
  {
    if k < body.yieldCount then (Session(c.Yield(), Suspended(k + 1)), None)
    else
      match body.ending
      case Complete =>
        var (c1, escaped) := Finish(c);
        (Session(c1, Finished), escaped)
      case BreakThenComplete =>
        (match c.Break()
         case (c1, Threw(e)) => (Session(c1.SetException(e), Finished), None)
         case (c1, Returned(_)) =>
           var (c2, escaped) := Finish(c1);
           (Session(c2, Finished), escaped))
      case Throw(e) => (Session(c.SetException(e), Finished), None)
  }

  /** Creating the CoopTask. The first segment runs as the continuation of the
      bootstrap `await CoopTask.Capture()`, which the builder's
      AwaitOnCompleted calls inside the body's outer try block; an exception
      escaping that segment is therefore caught there and handed to the
      builder's SetException. */
  function Create(body: Body): (s: Session)
    ensures body.yieldCount > 0 ==> s.channel.exception.None?
  {
    var (s, escaped) := Segment(Initial, body, 0);
    if escaped.Some? then s.(channel := s.channel.SetException(escaped.value)) else s
  }

  function AwaitNext(c: State): Observation<()>
  {
    if c.nextSource.Some? then Observe(c.nextSource.value, ()) else Hangs
  }

  /** One awaited MoveNext, with the body segment it releases. */
  function Pull(s: Session, body: Body): (r: (Session, Observation<()>))
    ensures s.channel.exception.Some? ==> r == (s, Throws(s.channel.exception.value))
  {
    var (c, call) := s.channel.MoveNext();
    match call
    case Threw(e) => (s.(channel := c), Throws(e))
    case Returned(task) =>
      if task.IsResolved() then (s.(channel := c), Observe(task, ()))
      else if s.producer.Suspended? && c.yieldSource == Some(Done(true)) then
        var s1 := Segment(c, body, s.producer.next).0;
        (s1, AwaitNext(s1.channel))
      else (s.(channel := c), AwaitNext(c))
  }

  /** `n` awaited MoveNext calls in a row; one that never completes is the last. */
  function Pulls(s: Session, body: Body, n: nat): (r: (Session, seq<Observation<()>>))
    ensures |r.1| <= n
    decreases n
  {
    if n == 0 then (s, [])
    else
      var (s1, o) := Pull(s, body);
      if o.Hangs? then (s1, [o])
      else
        var (s2, os) := Pulls(s1, body, n - 1);
        (s2, [o] + os)
  }

  function NextsN(n: nat): (obs: seq<Observation<()>>)
    ensures |obs| == n && forall i :: 0 <= i < n ==> obs[i] == Next(())
  {
    seq(n, _ => Next(()))
  }

  /** The session after `k` MoveNext calls that returned true, the body waiting
      in its `k`-th Yield. */
  predicate Yielding(s: Session, body: Body, k: nat)
  {
    && 1 <= k <= body.yieldCount
    && s.channel.isStarted
    && s.channel.yieldSource == Some(Pending)
    && (s.channel.nextSource.None? || s.channel.nextSource == Some(Done(true)))
    && s.channel.exception.None?
    && !s.channel.isCompleted
    && s.producer == Suspended(k)
  }

  /** The session after the body has completed and the consumer has seen false. */
  predicate Completed(s: Session)
  {
    && s.producer == Finished
    && s.channel.isCompleted
    && s.channel.exception.None?
    && s.channel.nextSource == Some(Done(false))
  }

  lemma PullYields(s: Session, body: Body, k: nat)
    requires Yielding(s, body, k) && body.ending == Complete
    ensures var (s1, o) := Pull(s, body);
            if k < body.yieldCount then o == Next(()) && Yielding(s1, body, k + 1)
            else (o == End && Completed(s1))
  {
  }

  lemma PullsCons(s: Session, body: Body, n: nat)
    requires n > 0 && !Pull(s, body).1.Hangs?
    ensures Pulls(s, body, n) == (Pulls(Pull(s, body).0, body, n - 1).0, [Pull(s, body).1] + Pulls(Pull(s, body).0, body, n - 1).1)
  {
  }

  lemma {:induction false} PullsFromYielding(s: Session, body: Body, k: nat)
    requires Yielding(s, body, k) && body.ending == Complete
    ensures var r := Pulls(s, body, body.yieldCount - k + 1);
            r.1 == NextsN(body.yieldCount - k) + [End] && Completed(r.0)
    decreases body.yieldCount - k
  {
    PullYields(s, body, k);
    PullsCons(s, body, body.yieldCount - k + 1);
    if k < body.yieldCount {
      PullsFromYielding(Pull(s, body).0, body, k + 1);
      assert NextsN(body.yieldCount - k) == [Next(())] + NextsN(body.yieldCount - (k + 1));
    }
  }

  /** A body that yields `n > 0` times and then falls off its end: the first
      `n` MoveNext calls return true, the next returns false, and IsCompleted
      holds afterwards. */
  lemma {:induction false} YieldsThenCompletes(n: nat)
    requires n > 0
    ensures var r := Pulls(Create(Body(n, Complete)), Body(n, Complete), n + 1);
            r.1 == NextsN(n) + [End] && r.0.channel.isCompleted
  {
    var body := Body(n, Complete);
    var s0 := Create(body);
    assert s0 == Session(Initial.Yield(), Suspended(1));
    var s1 := Pull(s0, body).0;
    assert Pull(s0, body).1 == Next(()) && Yielding(s1, body, 1);
    PullsCons(s0, body, n + 1);
    PullsFromYielding(s1, body, 1);
    assert NextsN(n) == [Next(())] + NextsN(n - 1);
  }

  /** EnumerationAdvancesCorrectlyAndCompletes1 and 2: three Yields, then the
      fourth MoveNext returns false and IsCompleted holds. */
  lemma ThreeYieldsTrace()
    ensures var r := Pulls(Create(Body(3, Complete)), Body(3, Complete), 4);
            r.1 == [Next(()), Next(()), Next(()), End] && r.0.channel.isCompleted
  {
    YieldsThenCompletes(3);
  }

  /** ThrowsOnMoveNext: a body that throws after one Yield. The second
      MoveNext throws, and so does every one after it. */
  lemma ThrowAfterOneYieldTrace(err: Error)
    ensures var body := Body(1, Throw(err));
            Pulls(Create(body), body, 3).1 == [Next(()), Throws(err), Throws(err)]
  {
  }

  /** A body that ends before its first Yield finishes inside the creating
      call, before any MoveNext has installed `nextSource`: SetCompletion
      sets IsCompleted and then throws NullReferenceException, which the
      bootstrap frame stores. Every MoveNext then throws it. */
  lemma EmptyBodyStoresNullReference()
    ensures Create(Body(0, Complete)).channel.isCompleted
    ensures Create(Body(0, Complete)).channel.exception == Some(NullReference)
    ensures Pulls(Create(Body(0, Complete)), Body(0, Complete), 2).1 == [Throws(NullReference), Throws(NullReference)]
  {
  }
}
