/** The rendezvous AsyncEnumerator<T> (src/AsyncEnumerator/AsyncEnumerator.cs).
    One value is in flight at a time: the producer body stores it in Current
    and waits on `_yieldSource` until the consumer's next MoveNext releases it;
    the consumer waits on `_nextSource` until the body hands over the next
    value or breaks. A producer exception is kept and rethrown by every later
    MoveNext and GetAwaiter. */
module RendezvousEnumerator {
  import opened Tasks

  /** The fields of an AsyncEnumerator<T>: `_isStarted`, `_nextSource` (the
      consumer's wait), `_yieldSource` (the producer's wait), `Current`,
      `_exception` and `IsCompleted`. */
  datatype State<T> = State(
    isStarted: bool,
    nextSource: Option<Cell>,
    yieldSource: Option<Cell>,
    current: T,
    exception: Option<Error>,
    isCompleted: bool)
  {
    /** MoveNext. The result is the task returned; a Pending task is the new
        `nextSource`, which the consumer then awaits. */
    function MoveNext(): (r: (State<T>, Call<Cell>))
      ensures exception.Some? ==> r == (this, Threw(exception.value))
      ensures exception.None? && !isStarted ==> r == (this.(isStarted := true), Returned(Done(true)))
      ensures r.1 == Returned(Pending) <==> exception.None? && isStarted && yieldSource.Some?
      ensures r.1 == Returned(Done(true)) <==> exception.None? && (!isStarted || yieldSource.None?)
      ensures exception.None? && isStarted ==>
                r.0 == this.(nextSource := Some(Pending), yieldSource := ResolveIfAny(yieldSource, true))
      ensures r.0.current == current && r.0.exception == exception && r.0.isCompleted == isCompleted
    {
      if exception.Some? then (this, Threw(exception.value))
      else if !isStarted then (this.(isStarted := true), Returned(Done(true)))
      else
        var s := this.(nextSource := Some(Pending), yieldSource := ResolveIfAny(yieldSource, true));
        if yieldSource.None? then (s, Returned(Done(true))) else (s, Returned(Pending))
    }

    /** The producer's Return(value): the value becomes Current, a fresh
        `yieldSource` is installed for the producer to await, and a waiting
        consumer is woken with true. */
    function Return(value: T): (r: State<T>)
      ensures r.current == value && r.yieldSource == Some(Pending)
      ensures r.nextSource == ResolveIfAny(nextSource, true)
      ensures r.isStarted == isStarted && r.exception == exception && r.isCompleted == isCompleted
    {
      this.(current := value, yieldSource := Some(Pending), nextSource := ResolveIfAny(nextSource, true))
    }

    /** The producer's Pause(): marks the enumerator started and installs a fresh
        `yieldSource` without touching Current or the consumer's wait. */
    function Pause(): (r: State<T>)
      ensures r.isStarted && r.yieldSource == Some(Pending)
      ensures r.(isStarted := isStarted, yieldSource := yieldSource) == this
    {
      this.(isStarted := true, yieldSource := Some(Pending))
    }

    /** The producer's Break(): resolves `nextSource` with false and returns
        default(T). `_nextSource` is dereferenced without a null check, so
        with no consumer wait yet it throws NullReferenceException. */
    function Break(defaultValue: T): (r: (State<T>, Call<T>))
      ensures nextSource.None? ==> r == (this, Threw(NullReference))
      ensures nextSource.Some? ==> r.1 == Returned(defaultValue)
      ensures nextSource.Some? ==> r.0 == this.(nextSource := Some(TrySetResult(nextSource.value, false)))
    {
      if nextSource.None? then (this, Threw(NullReference))
      else (this.(nextSource := Some(TrySetResult(nextSource.value, false))), Returned(defaultValue))
    }

    /** GetAwaiter: rethrows the stored exception before creating an awaiter. */
    function GetAwaiter(): (r: Call<()>)
      ensures r.Threw? <==> exception.Some?
      ensures r.Threw? ==> r.error == exception.value
    {
      if exception.Some? then Threw(exception.value) else Returned(())
    }

    /** SetException, also the builder's SetException: the exception is stored
        and a waiting consumer's task is faulted with it. */
    function SetException(e: Error): (r: State<T>)
      ensures r.exception == Some(e) && r.nextSource == FaultIfAny(nextSource, e)
      ensures r.(exception := exception, nextSource := nextSource) == this
    {
      this.(exception := Some(e), nextSource := FaultIfAny(nextSource, e))
    }

    function SetCompletion(): (r: State<T>)
      ensures r.isCompleted && r.(isCompleted := isCompleted) == this
    {
      this.(isCompleted := true)
    }

    /** The builder's SetResult(value): SetCompletion, then Return(value). */
    function SetResult(value: T): (r: State<T>)
      ensures r.isCompleted && r.current == value && r.yieldSource == Some(Pending)
      ensures r.nextSource == ResolveIfAny(nextSource, true)
      ensures r.isStarted == isStarted && r.exception == exception
    {
      SetCompletion().Return(value)
    }

    /** The awaiter's IsCompleted mirrors the enumerator's. */
    function AwaiterIsCompleted(): (b: bool)
      ensures b == isCompleted
    {
      isCompleted
    }
  }

  function Initial<T>(defaultValue: T): State<T>
  {
    State(false, None, None, defaultValue, None, false)
  }

  /** One-shot resolution: once Break has resolved the consumer's wait with
      false, the builder's SetResult (which calls Return and so
      TrySetResult(true)) cannot turn it into true. */
  lemma BreakThenSetResultKeepsFalse<T>(s: State<T>, defaultValue: T)
    requires s.nextSource == Some(Pending)
    ensures s.Break(defaultValue).1 == Returned(defaultValue)
    ensures var r := s.Break(defaultValue).0.SetResult(defaultValue);
            r.nextSource == Some(Done(false)) && r.isCompleted && r.current == defaultValue
  {
  }

  /** The AsyncEnumerator<T> object, its fields updated in place. */
  class AsyncEnumerator<T> {
    var isStarted: bool
    var nextSource: Option<Cell>
    var yieldSource: Option<Cell>
    var current: T
    var exception: Option<Error>
    var isCompleted: bool
    /** default(T) */
    const defaultValue: T

    function Model(): State<T>
      reads this
    {
      State(isStarted, nextSource, yieldSource, current, exception, isCompleted)
    }

    constructor (defaultValue: T)
      ensures Model() == Initial(defaultValue) && this.defaultValue == defaultValue
    {
      this.defaultValue := defaultValue;
      isStarted, nextSource, yieldSource, current, exception, isCompleted := false, None, None, defaultValue, None, false;
    }

    method MoveNext() returns (r: Call<Cell>)
      modifies this
      ensures (Model(), r) == old(Model()).MoveNext()
    {
      if exception.Some? {
        return Threw(exception.value);
      }
      if !isStarted {
        isStarted := true;
        return Returned(Done(true));
      }
      nextSource := Some(Pending);
      var hadYield := yieldSource.Some?;
      yieldSource := ResolveIfAny(yieldSource, true);
      if !hadYield {
        return Returned(Done(true));
      }
      r := Returned(Pending);
    }

    method Return(value: T)
      modifies this
      ensures Model() == old(Model()).Return(value)
    {
      current := value;
      yieldSource := Some(Pending);
      nextSource := ResolveIfAny(nextSource, true);
    }

    method Pause()
      modifies this
      ensures Model() == old(Model()).Pause()
    {
      isStarted := true;
      yieldSource := Some(Pending);
    }

    method Break() returns (r: Call<T>)
      modifies this
      ensures (Model(), r) == old(Model()).Break(defaultValue)
    {
      if nextSource.None? {
        return Threw(NullReference);
      }
      nextSource := Some(TrySetResult(nextSource.value, false));
      r := Returned(defaultValue);
    }

    method GetAwaiter() returns (r: Call<()>)
      ensures r == Model().GetAwaiter()
    {
      if exception.Some? {
        return Threw(exception.value);
      }
      r := Returned(());
    }

    method SetException(e: Error)
      modifies this
      ensures Model() == old(Model()).SetException(e)
    {
      exception := Some(e);
      nextSource := FaultIfAny(nextSource, e);
    }

    method SetCompletion()
      modifies this
      ensures Model() == old(Model()).SetCompletion()
    {
      isCompleted := true;
    }

    /** AsyncEnumeratorMethodBuilder.SetResult */
    method SetResult(value: T)
      modifies this
      ensures Model() == old(Model()).SetResult(value)
    {
      SetCompletion();
      Return(value);
    }
  }

  // ---------------------------------------------------------------------------
  // Sessions. The body starts inside the call that creates the enumerator: the
  // bootstrap awaiter runs its continuation inline, so the body runs until it
  // first waits. Afterwards it runs one segment each time a MoveNext resolves
  // the `yieldSource` it is waiting on.

  /** A statement of the body that waits: `await yield.Return(v)` or `await yield.Pause()`. */
  datatype Suspension<T> = Yield(value: T) | Pause

  /** How the body ends: `return yield.Break();`, `return value;` or by throwing. */
  datatype Ending<T> = BreakAndReturn | ReturnValue(value: T) | Throw(error: Error)

  /** A producer body: its waiting statements in order, then its ending. */
  datatype Body<T> = Body(steps: seq<Suspension<T>>, ending: Ending<T>)

  /** Where the body is: waiting before step `next` (or before its ending), or finished. */
  datatype Producer = Suspended(next: nat) | Finished

  datatype Session<T> = Session(channel: State<T>, producer: Producer)

  /** The body's segment from its `k`-th wait: one waiting statement, or the ending.
      An exception in the ending, including the one Break throws, goes to the
      builder's SetException. */
  function Segment<T>(c: State<T>, body: Body<T>, k: nat, defaultValue: T): (r: Session<T>)
    ensures k < |body.steps| ==> r.producer == Suspended(k + 1)
    ensures k >= |body.steps| ==> r.producer == Finished
  {
    if k < |body.steps| then
      match body.steps[k]
      case Yield(v) => Session(c.Return(v), Suspended(k + 1))
      case Pause => Session(c.Pause(), Suspended(k + 1))
    else
      match body.ending
      case BreakAndReturn =>
        (match c.Break(defaultValue)
         case (c1, Threw(e)) => Session(c1.SetException(e), Finished)
         case (c1, Returned(d)) => Session(c1.SetResult(d), Finished))
      case ReturnValue(v) => Session(c.SetResult(v), Finished)
      case Throw(e) => Session(c.SetException(e), Finished)
  }

  /** Creating the enumerator: a fresh channel, and the body's first segment. */
  function Create<T>(body: Body<T>, defaultValue: T): Session<T>
  {
    Segment(Initial(defaultValue), body, 0, defaultValue)
  }

  /** What a consumer that awaits `nextSource` sees. */
  function AwaitNext<T>(c: State<T>): Observation<T>
  {
    if c.nextSource.Some? then Observe(c.nextSource.value, c.current) else Hangs
  }

  /** One awaited MoveNext: the call itself, then, if it returned the consumer's
      wait, the producer's segment released by it, then what the wait holds. */
  function Pull<T>(s: Session<T>, body: Body<T>, defaultValue: T): (r: (Session<T>, Observation<T>))
    ensures s.channel.exception.Some? ==> r == (s, Throws(s.channel.exception.value))
  {
    var (c, call) := s.channel.MoveNext();
    match call
    case Threw(e) => (s.(channel := c), Throws(e))
    case Returned(task) =>
      if task.IsResolved() then (s.(channel := c), Observe(task, c.current))
      else if s.producer.Suspended? && c.yieldSource == Some(Done(true)) then
        var s1 := Segment(c, body, s.producer.next, defaultValue);
        (s1, AwaitNext(s1.channel))
      else (s.(channel := c), AwaitNext(c))
  }

  /** `n` awaited MoveNext calls in a row; a MoveNext that never completes is
      the consumer's last. */
  function Pulls<T>(s: Session<T>, body: Body<T>, defaultValue: T, n: nat): (r: (Session<T>, seq<Observation<T>>))
    ensures |r.1| <= n
    decreases n
  {
    if n == 0 then (s, [])
    else
      var (s1, o) := Pull(s, body, defaultValue);
      if o.Hangs? then (s1, [o])
      else
        var (s2, os) := Pulls(s1, body, defaultValue, n - 1);
        (s2, [o] + os)
  }

  function Yields<T>(vs: seq<T>): (steps: seq<Suspension<T>>)
    ensures |steps| == |vs|
    ensures forall i :: 0 <= i < |vs| ==> steps[i] == Yield(vs[i])
  {
    seq(|vs|, i requires 0 <= i < |vs| => Yield(vs[i]))
  }

  function Nexts<T>(vs: seq<T>): (obs: seq<Observation<T>>)
    ensures |obs| == |vs|
    ensures forall i :: 0 <= i < |vs| ==> obs[i] == Next(vs[i])
  {
    seq(|vs|, i requires 0 <= i < |vs| => Next(vs[i]))
  }

  /** The session after the consumer has received the first `k` values of a
      body that returns `vs` and then breaks. */
  ghost predicate HandingOver<T>(s: Session<T>, vs: seq<T>, k: nat)
  {
    && 1 <= k <= |vs|
    && s.channel.isStarted
    && s.channel.yieldSource == Some(Pending)
    && (s.channel.nextSource.None? || s.channel.nextSource == Some(Done(true)))
    && s.channel.current == vs[k - 1]
    && s.channel.exception.None?
    && !s.channel.isCompleted
    && s.producer == Suspended(k)
  }

  /** The session after the body has broken and the consumer has seen false. */
  ghost predicate Ended<T>(s: Session<T>)
  {
    && s.producer == Finished
    && s.channel.isCompleted
    && s.channel.isStarted
    && s.channel.exception.None?
    && s.channel.yieldSource.Some?
    && s.channel.nextSource == Some(Done(false))
  }

  lemma PullHandsOver<T>(s: Session<T>, vs: seq<T>, k: nat, defaultValue: T)
    requires HandingOver(s, vs, k)
    ensures var r := Pull(s, Body(Yields(vs), BreakAndReturn), defaultValue);
            if k < |vs| then r.1 == Next(vs[k]) && HandingOver(r.0, vs, k + 1)
            else (r.1 == End && Ended(r.0))
  {
  }

  lemma {:induction false} PullsFromHandingOver<T>(s: Session<T>, vs: seq<T>, k: nat, defaultValue: T)
    requires HandingOver(s, vs, k)
    ensures var r := Pulls(s, Body(Yields(vs), BreakAndReturn), defaultValue, |vs| - k + 1);
            r.1 == Nexts(vs[k..]) + [End] && Ended(r.0)
    decreases |vs| - k
  {
    if k < |vs| {
      var body := Body(Yields(vs), BreakAndReturn);
      PullHandsOver(s, vs, k, defaultValue);
      PullsCons(s, body, defaultValue, |vs| - k + 1);
      PullsFromHandingOver(Pull(s, body, defaultValue).0, vs, k + 1, defaultValue);
      NextsCons(vs, k);
    } else {
      LastPullEnds(s, vs, defaultValue);
    }
  }

  /** After the last value, one more MoveNext releases the body's Break. */
  lemma LastPullEnds<T>(s: Session<T>, vs: seq<T>, defaultValue: T)
    requires HandingOver(s, vs, |vs|)
    ensures var r := Pulls(s, Body(Yields(vs), BreakAndReturn), defaultValue, 1);
            r.1 == Nexts(vs[|vs|..]) + [End] && Ended(r.0)
  {
    PullHandsOver(s, vs, |vs|, defaultValue);
    PullsCons(s, Body(Yields(vs), BreakAndReturn), defaultValue, 1);
    assert vs[|vs|..] == [];
  }

  lemma NextsCons<T>(vs: seq<T>, k: nat)
    requires k < |vs|
    ensures Nexts(vs[k..]) == [Next(vs[k])] + Nexts(vs[k + 1..])
  {
    assert vs[k..] == [vs[k]] + vs[k + 1..];
  }

  /** A MoveNext that completes is followed by the remaining ones. */
  lemma PullsCons<T>(s: Session<T>, body: Body<T>, defaultValue: T, n: nat)
    requires n > 0 && !Pull(s, body, defaultValue).1.Hangs?
    ensures var p := Pull(s, body, defaultValue);
            Pulls(s, body, defaultValue, n) == (Pulls(p.0, body, defaultValue, n - 1).0, [p.1] + Pulls(p.0, body, defaultValue, n - 1).1)
  {
  }

  /** Creating the enumerator runs the body up to its first Return, and the
      first MoveNext hands that value over at once. */
  lemma FirstPullHandsOver<T>(vs: seq<T>, defaultValue: T)
    requires vs != []
    ensures var body := Body(Yields(vs), BreakAndReturn);
            var (s1, o) := Pull(Create(body, defaultValue), body, defaultValue);
            o == Next(vs[0]) && HandingOver(s1, vs, 1)
  {
    var body := Body(Yields(vs), BreakAndReturn);
    assert body.steps[0] == Yield(vs[0]);
    assert Create(body, defaultValue).channel == Initial(defaultValue).Return(vs[0]);
  }

  /** The enumerator never looks at IsCompleted: once the body has finished,
      a MoveNext releases a `yieldSource` no body is waiting on, and the task it
      returns never completes. */
  lemma PullAfterEndHangs<T>(s: Session<T>, body: Body<T>, defaultValue: T)
    requires Ended(s)
    ensures Pull(s, body, defaultValue).1 == Hangs
  {
  }

  /** The rendezvous hands every value over in order: a body that returns the
      values `vs` one by one and then breaks gives (true, vs[0]), ..., (true,
      vs[|vs|-1]), then false; IsCompleted holds afterwards, and a further
      MoveNext never completes. */
  lemma {:induction false} HandsOverInOrder<T>(vs: seq<T>, defaultValue: T)
    requires vs != []
    ensures var body := Body(Yields(vs), BreakAndReturn);
            var r := Pulls(Create(body, defaultValue), body, defaultValue, |vs| + 1);
            r.1 == Nexts(vs) + [End] && r.0.channel.isCompleted && Pull(r.0, body, defaultValue).1 == Hangs
  {
    var body := Body(Yields(vs), BreakAndReturn);
    var s0 := Create(body, defaultValue);
    FirstPullHandsOver(vs, defaultValue);
    var p := Pull(s0, body, defaultValue);
    PullsCons(s0, body, defaultValue, |vs| + 1);
    var rest := Pulls(p.0, body, defaultValue, |vs|);
    PullsFromHandingOver(p.0, vs, 1, defaultValue);
    PullAfterEndHangs(rest.0, body, defaultValue);
    assert Nexts(vs) == [Next(vs[0])] + Nexts(vs[1..]);
  }

  /** EnumerationAdvancesCorrectlyAndCompletes1 and 2: Return 1, 2, 3 and Break. */
  lemma ReturnOneTwoThreeTrace()
    ensures var body := Body([Yield(1), Yield(2), Yield(3)], BreakAndReturn);
            var (s, obs) := Pulls(Create(body, 0), body, 0, 4);
            obs == [Next(1), Next(2), Next(3), End] && s.channel.isCompleted
  {
    HandsOverInOrder([1, 2, 3], 0);
    assert Yields([1, 2, 3]) == [Yield(1), Yield(2), Yield(3)];
  }

  /** EmptyEnumeratorTest: a body that breaks before handing anything over
      calls Break while `_nextSource` is still null; the NullReferenceException
      is stored, and the first MoveNext throws it instead of returning false. */
  lemma BreakFirstThrowsNullReference()
    ensures var body := Body([], BreakAndReturn);
            Pulls(Create(body, 0), body, 0, 2).1 == [Throws(NullReference), Throws(NullReference)]
  {
  }

  /** ThrowsOnMoveNext: a body that returns 1 and then throws. The consumer
      receives 1, then the exception, and every later MoveNext throws it again. */
  lemma ThrowAfterOneValueTrace(err: Error)
    ensures var body := Body([Yield(1)], Throw(err));
            Pulls(Create(body, 0), body, 0, 4).1 == [Next(1), Throws(err), Throws(err), Throws(err)]
  {
    var body := Body([Yield(1)], Throw(err));
    var s0 := Create(body, 0);
    var (s1, o1) := Pull(s0, body, 0);
    var (s2, o2) := Pull(s1, body, 0);
    assert o2 == Throws(err) && s2.channel.exception == Some(err);
    ExceptionIsSticky(s2, body, 0, 2, err);
  }

  /** The stored exception is sticky: every MoveNext after it throws it again
      and leaves the session as it was. */
  lemma {:induction false} ExceptionIsSticky<T>(s: Session<T>, body: Body<T>, defaultValue: T, n: nat, err: Error)
    requires s.channel.exception == Some(err)
    ensures Pulls(s, body, defaultValue, n) == (s, ThrowsN(err, n))
  {
    if n > 0 {
      ExceptionIsSticky(s, body, defaultValue, n - 1, err);
      assert ThrowsN<T>(err, n) == [Throws(err)] + ThrowsN(err, n - 1);
    }
  }

  function ThrowsN<T>(err: Error, n: nat): (obs: seq<Observation<T>>)
    ensures |obs| == n && forall i :: 0 <= i < n ==> obs[i] == Throws(err)
  {
    seq(n, _ => Throws(err))
  }

  /** Pause makes the first MoveNext wait for a real value instead of returning
      an immediate true with the default Current. */
  lemma PauseDefersFirstValue<T>(v: T, defaultValue: T)
    ensures var body := Body([Pause, Yield(v)], BreakAndReturn);
            Pulls(Create(body, defaultValue), body, defaultValue, 2).1 == [Next(v), End]
  {
    var body := Body([Pause, Yield(v)], BreakAndReturn);
    var s0 := Create(body, defaultValue);
    var (s1, o1) := Pull(s0, body, defaultValue);
    assert o1 == Next(v);
  }
}
