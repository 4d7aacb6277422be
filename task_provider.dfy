/** TaskProvider<TOutput> (src/AsyncEnumerator/TaskProvider.cs): the object a
    producer body awaits first (`await X.Capture()`) to obtain its own channel.
    Each GetAwaiter returns a fresh awaiter whose slot `_task` starts null; the
    method builder fills it through the two-argument OnCompleted, which then
    runs the body's continuation at once. */
module TaskProviderSlot {
  import opened Tasks

  /** The awaiter, with its single-assignment slot (None while `_task` is null). */
  class TaskProviderAwaiter<TOutput> {
    var task: Option<TOutput>

    constructor ()
      ensures task.None?
    {
      task := None;
    }

    /** IsCompleted: whether the slot has been filled. */
    function IsCompleted(): (b: bool)
      reads this
      ensures b <==> task.Some?
    {
      task.Some?
    }

    /** GetResult: the slot's content, null (None) before OnCompleted. */
    function GetResult(): (r: Option<TOutput>)
      reads this
      ensures r.Some? <==> IsCompleted()
      ensures r.Some? ==> r == task
    {
      task
    }

    /** The one-argument OnCompleted always throws InvalidOperationException;
        the continuation is not run and the slot stays as it was. */
    method OnCompleted<R>(continuation: Option<TOutput> -> R) returns (r: Call<R>)
      ensures r == Threw(InvalidOperation)
    {
      r := Threw(InvalidOperation);
    }

    /** OnCompleted(continuation, task): stores `t` in the slot, then runs the
        continuation, which therefore finds the awaiter completed with `t`. */
    method OnCompletedWith<R>(continuation: Option<TOutput> -> R, t: TOutput) returns (r: R)
      modifies this
      ensures task == Some(t) && IsCompleted()
      ensures r == continuation(GetResult())
    {
      task := Some(t);
      r := continuation(GetResult());
    }
  }

  /** The provider; `Instance` is one shared object, but every GetAwaiter call
      allocates a new awaiter. */
  class TaskProvider<TOutput> {
    constructor ()
    {
    }

    method GetAwaiter() returns (a: TaskProviderAwaiter<TOutput>)
      ensures fresh(a) && !a.IsCompleted()
    {
      a := new TaskProviderAwaiter();
    }
  }

  /** The bootstrap of a producer body: the awaiter it gets is not yet
      completed, so the builder hands it the channel with OnCompleted; the
      continuation (the rest of the body) then receives exactly that channel,
      and the awaiter reports completion. */
  method Bootstrap<TOutput, R>(provider: TaskProvider<TOutput>, channel: TOutput, body: Option<TOutput> -> R)
    returns (completedBefore: bool, completedAfter: bool, received: Option<TOutput>, ran: R)
    ensures !completedBefore && completedAfter
    ensures received == Some(channel)
    ensures ran == body(Some(channel))
  {
    var awaiter := provider.GetAwaiter();
    completedBefore := awaiter.IsCompleted();
    ran := awaiter.OnCompletedWith(body, channel);
    completedAfter := awaiter.IsCompleted();
    received := awaiter.GetResult();
  }

  /** Awaiting the provider through the plain INotifyCompletion path fails,
      the body never runs, and the awaiter stays incomplete. */
  method PlainOnCompletedFails<TOutput, R>(provider: TaskProvider<TOutput>, body: Option<TOutput> -> R)
    returns (outcome: Call<R>, completed: bool)
    ensures outcome == Threw(InvalidOperation)
    ensures !completed
  {
    var awaiter := provider.GetAwaiter();
    outcome := awaiter.OnCompleted(body);
    completed := awaiter.IsCompleted();
  }

  /** Two bodies bootstrapping through the same shared provider each receive
      their own channel: filling one awaiter's slot leaves the other's alone. */
  method AwaitersAreIndependent<TOutput>(provider: TaskProvider<TOutput>, first: TOutput, second: TOutput)
    returns (secondBefore: bool, gotFirst: Option<TOutput>, gotSecond: Option<TOutput>)
    ensures !secondBefore
    ensures gotFirst == Some(first) && gotSecond == Some(second)
  {
    var a1 := provider.GetAwaiter();
    var a2 := provider.GetAwaiter();
    var _ := a1.OnCompletedWith((o: Option<TOutput>) => 0, first);
    secondBefore := a2.IsCompleted();
    var _ := a2.OnCompletedWith((o: Option<TOutput>) => 0, second);
    gotFirst := a1.GetResult();
    gotSecond := a2.GetResult();
  }
}
