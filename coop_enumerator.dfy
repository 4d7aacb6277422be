/** AsyncCoopEnumerator<T> (src/AsyncEnumerator/AsyncEnumerator/AsyncCoopEnumerator.cs):
    the rendezvous protocol with a payload and without a stored exception.
    The builder's SetException only sets IsCompleted, so a body exception is
    lost; the builder's SetResult records the body's return value in Result
    and hands it over once more through Yield. */
module AsyncCoopEnumeratorChannel {
  import opened Tasks

  /** The fields of an AsyncCoopEnumerator<T>: `_isStarted`, `_nextSource`,
      `_yieldSource`, `Current`, `IsCompleted` and `Result`. */
  datatype State<T> = State(
    isStarted: bool,
    nextSource: Option<Cell>,
    yieldSource: Option<Cell>,
    current: T,
    isCompleted: bool,
    result: T)
  {
    /** MoveNext: the first call returns true at once and marks the enumerator
        started; a later one installs a fresh `nextSource`, releases the body's
        `yieldSource`, and returns `nextSource` unless there was none. */
    function MoveNext(): (r: (State<T>, Cell))
      ensures !isStarted ==> r == (this.(isStarted := true), Done(true))
      ensures r.1 == Pending <==> isStarted && yieldSource.Some?
      ensures r.1 == Done(true) <==> !isStarted || yieldSource.None?
      ensures isStarted ==> r.0 == this.(nextSource := Some(Pending), yieldSource := ResolveIfAny(yieldSource, true))
      ensures r.0.current == current && r.0.isCompleted == isCompleted && r.0.result == result
    {
      if !isStarted then (this.(isStarted := true), Done(true))
      else
        var s := this.(nextSource := Some(Pending), yieldSource := ResolveIfAny(yieldSource, true));
        if yieldSource.None? then (s, Done(true)) else (s, Pending)
    }

    /** The body's Yield(value): sets Current, installs a fresh `yieldSource`
        for the body to await and wakes a waiting consumer with true. */
    function Yield(value: T): (r: State<T>)
      ensures r.current == value && r.yieldSource == Some(Pending)
      ensures r.nextSource == ResolveIfAny(nextSource, true)
      ensures r.isStarted == isStarted && r.isCompleted == isCompleted && r.result == result
    {
      this.(current := value, yieldSource := Some(Pending), nextSource := ResolveIfAny(nextSource, true))
    }

    /** The body's YieldInit(): marks the enumerator started and installs a
        `yieldSource` without touching Current or the consumer's wait. */
    function YieldInit(): (r: State<T>)
      ensures r.isStarted && r.yieldSource == Some(Pending)
      ensures r.(isStarted := isStarted, yieldSource := yieldSource) == this
    {
      this.(isStarted := true, yieldSource := Some(Pending))
    }

    /** The body's YieldReturn(): resolves `nextSource` with false and returns
        default(T); the dereference is unchecked, so with no consumer wait yet
        it throws NullReferenceException. */
    function YieldReturn(defaultValue: T): (r: (State<T>, Call<T>))
      ensures nextSource.None? ==> r == (this, Threw(NullReference))
      ensures nextSource.Some? ==> r == (this.(nextSource := Some(TrySetResult(nextSource.value, false))), Returned(defaultValue))
    {
      if nextSource.None? then (this, Threw(NullReference))
      else (this.(nextSource := Some(TrySetResult(nextSource.value, false))), Returned(defaultValue))
    }

    /** The builder's SetResult(value): Result and IsCompleted, then Yield(value). */
    function SetResult(value: T): (r: State<T>)
      ensures r.result == value && r.isCompleted && r.current == value
      ensures r.yieldSource == Some(Pending) && r.nextSource == ResolveIfAny(nextSource, true)
      ensures r.isStarted == isStarted
    {
      this.(result := value, isCompleted := true).Yield(value)
    }

    /** The builder's SetException: only IsCompleted is set; the exception is
        dropped and a waiting consumer is not woken. */
    function SetException(e: Error): (r: State<T>)
      ensures r.isCompleted && r.(isCompleted := isCompleted) == this
    {
      this.(isCompleted := true)
    }

    function AwaiterIsCompleted(): (b: bool)
      ensures b == isCompleted
    {
      isCompleted
    }

    /** The awaiter's GetResult returns Result. */
    function AwaiterGetResult(): (v: T)
      ensures v == result
    {
      result
    }
  }

  function Initial<T>(defaultValue: T): State<T>
  {
    State(false, None, None, defaultValue, false, defaultValue)
  }

  /** One-shot resolution: after YieldReturn has answered the consumer's wait
      with false, the builder's SetResult (whose Yield calls TrySetResult(true))
      cannot turn it into true. */
  lemma YieldReturnThenSetResultKeepsFalse<T>(s: State<T>, defaultValue: T)
    requires s.nextSource == Some(Pending)
    ensures s.YieldReturn(defaultValue).1 == Returned(defaultValue)
    ensures var r := s.YieldReturn(defaultValue).0.SetResult(defaultValue);
            r.nextSource == Some(Done(false)) && r.isCompleted && r.result == defaultValue
  {
  }

  /** The AsyncCoopEnumerator<T> object, its fields updated in place. */
  class AsyncCoopEnumerator<T> {
    var isStarted: bool
    var nextSource: Option<Cell>
    var yieldSource: Option<Cell>
    var current: T
    var isCompleted: bool
    var result: T
    /** default(T) */
    const defaultValue: T

    function Model(): State<T>
      reads this
    {
      State(isStarted, nextSource, yieldSource, current, isCompleted, result)
    }

    constructor (defaultValue: T)
      ensures Model() == Initial(defaultValue) && this.defaultValue == defaultValue
    {
      this.defaultValue := defaultValue;
      isStarted, nextSource, yieldSource, current, isCompleted, result := false, None, None, defaultValue, false, defaultValue;
    }

    method MoveNext() returns (task: Cell)
      modifies this
      ensures (Model(), task) == old(Model()).MoveNext()
    {
      if !isStarted {
        isStarted := true;
        return Done(true);
      }
      nextSource := Some(Pending);
      var hadYield := yieldSource.Some?;
      yieldSource := ResolveIfAny(yieldSource, true);
      if !hadYield {
        return Done(true);
      }
      task := Pending;
    }

    method Yield(value: T)
      modifies this
      ensures Model() == old(Model()).Yield(value)
    {
      current := value;
      yieldSource := Some(Pending);
      nextSource := ResolveIfAny(nextSource, true);
    }

    method YieldInit()
      modifies this
      ensures Model() == old(Model()).YieldInit()
    {
      isStarted := true;
      yieldSource := Some(Pending);
    }

    method YieldReturn() returns (r: Call<T>)
      modifies this
      ensures (Model(), r) == old(Model()).YieldReturn(defaultValue)
    {
      if nextSource.None? {
        return Threw(NullReference);
      }
      nextSource := Some(TrySetResult(nextSource.value, false));
      r := Returned(defaultValue);
    }

    /** AsyncCoopEnumeratorMethodBuilder.SetResult */
    method SetResult(value: T)
      modifies this
      ensures Model() == old(Model()).SetResult(value)
    {
      result := value;
      isCompleted := true;
      Yield(value);
    }

    /** AsyncCoopEnumeratorMethodBuilder.SetException */
    method SetException(e: Error)
      modifies this
      ensures Model() == old(Model()).SetException(e)
    {
      isCompleted := true;
    }

    method AwaiterGetResult() returns (v: T)
      ensures v == Model().AwaiterGetResult()
    {
      v := result;
    }
  }

  // ---------------------------------------------------------------------------
  // Sessions: the body starts inside the creating call (the bootstrap awaiter
  // runs its continuation inline) and runs until it first waits; afterwards it
  // runs one segment each time a MoveNext releases its `yieldSource`.

  /** A waiting statement of the body: `await iter.Yield(v)` or `await iter.YieldInit()`. */
  datatype Suspension<T> = Yield(value: T) | YieldInit

  /** How the body ends: `return iter.YieldReturn();`, `return value;` or by throwing. */
  datatype Ending<T> = YieldReturnAndReturn | ReturnValue(value: T) | Throw(error: Error)

  datatype Body<T> = Body(steps: seq<Suspension<T>>, ending: Ending<T>)

  datatype Producer = Suspended(next: nat) | Finished

  datatype Session<T> = Session(channel: State<T>, producer: Producer)

  /** The body's segment from its `k`-th wait. An exception in the ending,
      including the one YieldReturn throws, goes to the builder's SetException. */
  function Segment<T>(c: State<T>, body: Body<T>, k: nat, defaultValue: T): (r: Session<T>)
    ensures k < |body.steps| ==> r.producer == Suspended(k + 1)
    ensures k >= |body.steps| ==> r.producer == Finished && r.channel.isCompleted
  {
    if k < |body.steps| then
      match body.steps[k]
      case Yield(v) => Session(c.Yield(v), Suspended(k + 1))
      case YieldInit => Session(c.YieldInit(), Suspended(k + 1))
    else
      match body.ending
      case YieldReturnAndReturn =>
        (match c.YieldReturn(defaultValue)
         case (c1, Threw(e)) => Session(c1.SetException(e), Finished)
         case (c1, Returned(d)) => Session(c1.SetResult(d), Finished))
      case ReturnValue(v) => Session(c.SetResult(v), Finished)
      case Throw(e) => Session(c.SetException(e), Finished)
  }

  function Create<T>(body: Body<T>, defaultValue: T): Session<T>
  {
    Segment(Initial(defaultValue), body, 0, defaultValue)
  }

  function AwaitNext<T>(c: State<T>): Observation<T>
  {
    if c.nextSource.Some? then Observe(c.nextSource.value, c.current) else Hangs
  }

  /** One awaited MoveNext, with the body segment it releases. */
  function Pull<T>(s: Session<T>, body: Body<T>, defaultValue: T): (r: (Session<T>, Observation<T>))
  {
    var (c, task) := s.channel.MoveNext();
    if task.IsResolved() then (s.(channel := c), Observe(task, c.current))
    else if s.producer.Suspended? && c.yieldSource == Some(Done(true)) then
      var s1 := Segment(c, body, s.producer.next, defaultValue);
      (s1, AwaitNext(s1.channel))
    else (s.(channel := c), AwaitNext(c))
  }

  /** `n` awaited MoveNext calls in a row; one that never completes is the last. */
  function Pulls<T>(s: Session<T>, body: Body<T>, defaultValue: T, n: nat): (r: (Session<T>, seq<Observation<T>>))
    ensures |r.1| <= n
    decreases n
  {
    if n == 0 then (s, [])
    else
      var (s1, o) := Pull(s, body, defaultValue);
      if o.Hangs? then (s1, [o])
      else
        var (s2, os) := Pulls(s1, body, defaultValue, n - 1);
        (s2, [o] + os)
  }

  function Yields<T>(vs: seq<T>): (steps: seq<Suspension<T>>)
    ensures |steps| == |vs|
    ensures forall i :: 0 <= i < |vs| ==> steps[i] == Yield(vs[i])
  {
    seq(|vs|, i requires 0 <= i < |vs| => Yield(vs[i]))
  }

  function Nexts<T>(vs: seq<T>): (obs: seq<Observation<T>>)
    ensures |obs| == |vs|
    ensures forall i :: 0 <= i < |vs| ==> obs[i] == Next(vs[i])
  {
    seq(|vs|, i requires 0 <= i < |vs| => Next(vs[i]))
  }

  /** The session after the consumer has received the first `k` values of a
      body that yields `vs` and then returns YieldReturn(). */
  ghost predicate HandingOver<T>(s: Session<T>, vs: seq<T>, k: nat)
  {
    && 1 <= k <= |vs|
    && s.channel.isStarted
    && s.channel.yieldSource == Some(Pending)
    && (s.channel.nextSource.None? || s.channel.nextSource == Some(Done(true)))
    && s.channel.current == vs[k - 1]
    && !s.channel.isCompleted
    && s.producer == Suspended(k)
  }

  /** The session after the body has returned YieldReturn() and the consumer
      has seen false. */
  ghost predicate Ended<T>(s: Session<T>, defaultValue: T)
  {
    && s.producer == Finished
    && s.channel.isCompleted
    && s.channel.isStarted
    && s.channel.result == defaultValue
    && s.channel.yieldSource.Some?
    && s.channel.nextSource == Some(Done(false))
  }

  lemma PullHandsOver<T>(s: Session<T>, vs: seq<T>, k: nat, defaultValue: T)
    requires HandingOver(s, vs, k)
    ensures var r := Pull(s, Body(Yields(vs), YieldReturnAndReturn), defaultValue);
            if k < |vs| then r.1 == Next(vs[k]) && HandingOver(r.0, vs, k + 1)
            else (r.1 == End && Ended(r.0, defaultValue))
  {
  }

  lemma PullsCons<T>(s: Session<T>, body: Body<T>, defaultValue: T, n: nat)
    requires n > 0 && !Pull(s, body, defaultValue).1.Hangs?
    ensures var p := Pull(s, body, defaultValue);
            Pulls(s, body, defaultValue, n) == (Pulls(p.0, body, defaultValue, n - 1).0, [p.1] + Pulls(p.0, body, defaultValue, n - 1).1)
  {
  }

  lemma {:induction false} PullsFromHandingOver<T>(s: Session<T>, vs: seq<T>, k: nat, defaultValue: T)
    requires HandingOver(s, vs, k)
    ensures var r := Pulls(s, Body(Yields(vs), YieldReturnAndReturn), defaultValue, |vs| - k + 1);
            r.1 == Nexts(vs[k..]) + [End] && Ended(r.0, defaultValue)
    decreases |vs| - k
  {
    if k < |vs| {
      var body := Body(Yields(vs), YieldReturnAndReturn);
      PullHandsOver(s, vs, k, defaultValue);
      PullsCons(s, body, defaultValue, |vs| - k + 1);
      PullsFromHandingOver(Pull(s, body, defaultValue).0, vs, k + 1, defaultValue);
      NextsCons(vs, k);
    } else {
      LastPullEnds(s, vs, defaultValue);
    }
  }

  /** After the last value, one more MoveNext runs YieldReturn and answers false. */
  lemma LastPullEnds<T>(s: Session<T>, vs: seq<T>, defaultValue: T)
    requires HandingOver(s, vs, |vs|)
    ensures var r := Pulls(s, Body(Yields(vs), YieldReturnAndReturn), defaultValue, 1);
            r.1 == Nexts(vs[|vs|..]) + [End] && Ended(r.0, defaultValue)
  {
    PullHandsOver(s, vs, |vs|, defaultValue);
    PullsCons(s, Body(Yields(vs), YieldReturnAndReturn), defaultValue, 1);
    assert vs[|vs|..] == [];
  }

  lemma NextsCons<T>(vs: seq<T>, k: nat)
    requires k < |vs|
    ensures Nexts(vs[k..]) == [Next(vs[k])] + Nexts(vs[k + 1..])
  {
    assert vs[k..] == [vs[k]] + vs[k + 1..];
  }

  lemma FirstPullHandsOver<T>(vs: seq<T>, defaultValue: T)
    requires vs != []
    ensures var body := Body(Yields(vs), YieldReturnAndReturn);
            var (s1, o) := Pull(Create(body, defaultValue), body, defaultValue);
            o == Next(vs[0]) && HandingOver(s1, vs, 1)
  {
    var body := Body(Yields(vs), YieldReturnAndReturn);
    assert body.steps[0] == Yield(vs[0]);
    assert Create(body, defaultValue).channel == Initial(defaultValue).Yield(vs[0]);
  }

  /** A finished enumerator ignores IsCompleted: the next MoveNext releases a
      `yieldSource` no body awaits, and its task never completes. */
  lemma PullAfterEndHangs<T>(s: Session<T>, body: Body<T>, defaultValue: T)
    requires Ended(s, defaultValue)
    ensures Pull(s, body, defaultValue).1 == Hangs
  {
  }

  /** A body that yields `vs` one by one and then returns YieldReturn(): the
      consumer sees (true, vs[0]), ..., (true, vs[|vs|-1]), then false;
      afterwards IsCompleted holds, the awaiter's GetResult is default(T),
      and a further MoveNext never completes. */
  lemma {:induction false} HandsOverInOrder<T>(vs: seq<T>, defaultValue: T)
    requires vs != []
    ensures var body := Body(Yields(vs), YieldReturnAndReturn);
            var r := Pulls(Create(body, defaultValue), body, defaultValue, |vs| + 1);
            && r.1 == Nexts(vs) + [End]
            && r.0.channel.isCompleted
            && r.0.channel.AwaiterGetResult() == defaultValue
            && Pull(r.0, body, defaultValue).1 == Hangs
  {
    var body := Body(Yields(vs), YieldReturnAndReturn);
    var s0 := Create(body, defaultValue);
    FirstPullHandsOver(vs, defaultValue);
    var p := Pull(s0, body, defaultValue);
    PullsCons(s0, body, defaultValue, |vs| + 1);
    var rest := Pulls(p.0, body, defaultValue, |vs|);
    PullsFromHandingOver(p.0, vs, 1, defaultValue);
    PullAfterEndHangs(rest.0, body, defaultValue);
    assert Nexts(vs) == [Next(vs[0])] + Nexts(vs[1..]);
  }

  /** EnumerationAdvancesCorrectlyAndCompletes1 and 2: Yield 1, 2, 3, then
      `return iter.YieldReturn()`. */
  lemma YieldOneTwoThreeTrace()
    ensures var body := Body([Yield(1), Yield(2), Yield(3)], YieldReturnAndReturn);
            var r := Pulls(Create(body, 0), body, 0, 4);
            r.1 == [Next(1), Next(2), Next(3), End] && r.0.channel.isCompleted
  {
    HandsOverInOrder([1, 2, 3], 0);
    assert Yields([1, 2, 3]) == [Yield(1), Yield(2), Yield(3)];
  }

  function NextsOf<T>(v: T, n: nat): (obs: seq<Observation<T>>)
    ensures |obs| == n && forall i :: 0 <= i < n ==> obs[i] == Next(v)
  {
    seq(n, _ => Next(v))
  }

  /** A body that returns YieldReturn() before its first Yield: YieldReturn
      throws NullReferenceException, which the builder's SetException drops
      after setting IsCompleted. With neither wait cell installed, every
      MoveNext then returns true at once, with Current still default(T). */
  lemma {:induction false} EmptyBodyNeverEnds<T>(defaultValue: T, n: nat)
    ensures var body := Body([], YieldReturnAndReturn);
            var s := Create(body, defaultValue);
            s.channel.isCompleted && Pulls(s, body, defaultValue, n).1 == NextsOf(defaultValue, n)
  {
    var body: Body<T> := Body([], YieldReturnAndReturn);
    var s := Create(body, defaultValue);
    assert s == Session(Initial(defaultValue).(isCompleted := true), Finished);
    if n > 0 {
      var s1 := Pull(s, body, defaultValue).0;
      assert Pull(s, body, defaultValue).1 == Next(defaultValue);
      assert s1 == s.(channel := s.channel.(isStarted := true));
      PullsCons(s, body, defaultValue, n);
      StartedEmptyNeverEnds(s1, body, defaultValue, n - 1);
      assert NextsOf(defaultValue, n) == [Next(defaultValue)] + NextsOf(defaultValue, n - 1);
    }
  }

  lemma {:induction false} StartedEmptyNeverEnds<T>(s: Session<T>, body: Body<T>, defaultValue: T, n: nat)
    requires s.channel.isStarted && s.channel.yieldSource.None?
    ensures Pulls(s, body, defaultValue, n).1 == NextsOf(s.channel.current, n)
    decreases n
  {
    if n > 0 {
      var s1 := Pull(s, body, defaultValue).0;
      assert Pull(s, body, defaultValue).1 == Next(s.channel.current);
      PullsCons(s, body, defaultValue, n);
      StartedEmptyNeverEnds(s1, body, defaultValue, n - 1);
      assert NextsOf(s.channel.current, n) == [Next(s.channel.current)] + NextsOf(s.channel.current, n - 1);
    }
  }

  /** A body exception is lost: a body that throws after yielding `v` leaves
      the consumer's second MoveNext waiting for ever, although IsCompleted is
      set. */
  lemma ThrowAfterOneValueIsLost<T>(v: T, err: Error, defaultValue: T)
    ensures var body := Body([Yield(v)], Throw(err));
            var r := Pulls(Create(body, defaultValue), body, defaultValue, 3);
            r.1 == [Next(v), Hangs] && r.0.channel.isCompleted
  {
    var body := Body([Yield(v)], Throw(err));
    var s0 := Create(body, defaultValue);
    assert s0.channel == Initial(defaultValue).Yield(v);
    var s1 := Pull(s0, body, defaultValue).0;
    assert Pull(s0, body, defaultValue).1 == Next(v);
    assert Pull(s1, body, defaultValue).1 == Hangs;
  }
}
