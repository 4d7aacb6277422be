# AsyncEnumerator channels, modelled in Dafny

AsyncEnumerator turns an `async` producer body into a pull-based asynchronous
sequence. A custom async method builder creates a *channel* object. The body
obtains it through a bootstrap awaiter (`await X.Capture()`) and hands values
over through it. The consumer calls `MoveNext()`, awaits the `Task<bool>` it
returns, and reads `Current`. Each channel is a small state machine over a few
fields:

- `_nextSource` is the TaskCompletionSource the consumer waits on.
- `_yieldSource` is the one the producer waits on (rendezvous channels only).
- `_valueQueue` is a FIFO queue (buffered channels only).
- `Current`, `IsCompleted`, `_isStarted`, a stored `_exception` and a `Result`
  appear in some of the classes.

This project models every channel class of the library, the bootstrap slot and
the `ForeachAsync` consumer loop. Each C# file is one Dafny module:

| module | file | kind |
|---|---|---|
| `Tasks` | (shared) | TaskCompletionSource<bool> as a one-shot `Cell` (`Pending`, `Done(b)`, `Faulted(e)`), `?.`-calls on nullable fields, exceptions as opaque values, and what one awaited MoveNext yields |
| `AsyncSequenceChannel` | src/AsyncEnumerator/AsyncSequence.cs | buffered, sticky exception |
| `RendezvousEnumerator` | src/AsyncEnumerator/AsyncEnumerator.cs | rendezvous, sticky exception |
| `CoopTaskChannel` | src/AsyncEnumerator/CoopTask.cs | rendezvous without a payload, sticky exception |
| `AsyncCoopEnumeratorChannel` | src/AsyncEnumerator/AsyncEnumerator/AsyncCoopEnumerator.cs | rendezvous, exception dropped |
| `BufferedEnumerator` | src/AsyncEnumerator/AsyncEnumerator/AsyncEnumerator.cs | buffered, exception dropped, `Result` |
| `ParallelEnumerator` | src/AsyncEnumerator/AsyncParallelEnumerator.cs | buffered, exception dropped |
| `TaskProviderSlot` | src/AsyncEnumerator/TaskProvider.cs | single-assignment bootstrap awaiter |
| `ForeachLoop` | src/AsyncEnumerator/AsyncEnumeratorExtensions.cs | the two `ForeachAsync` drain loops |

Each channel module has three layers.

1. A `datatype State` holds the class's fields. Each operation is one
   member function on it, which serves as the specification. Its contract
   states the branch structure of the C# method and which fields change.
2. A `class` has the same fields, updated in place. Each method mirrors the
   C# body statement by statement. Its `ensures` ties the new state and the
   result to the specification function on the old state.
3. A *session* layer puts the producer body and the consumer together:
   - Buffered channels use interleaved events: MoveNext, resume after the
     await, produce, and the body's end. The producer runs on the thread
     pool, so any interleaving can happen.
   - Rendezvous channels use a body script: its waits and its ending. It is
     run segment by segment, each time a MoveNext releases the producer's
     wait. The bootstrap awaiter runs the body inline, up to its first wait,
     inside the call that creates the channel.

   The lemmas over sessions state what the library promises:
   - FIFO delivery, with no loss, duplication or reordering;
   - the first-call short-circuit;
   - one-shot resolution of a wait;
   - stickiness of a stored exception;
   - terminal states;
   - the concrete traces of the test suite.

`MoveNext` of the buffered channels contains an `await`. It is split into
`MoveNextStart`, everything before `await _nextSource.Task`, and
`MoveNextResume`, everything after it.

## Behaviour of the code as written

Several behaviours of the code differ from what its tests or its design
suggest. The model follows the code, and each behaviour is proved.

- Rendezvous `AsyncEnumerator<T>`, a body that calls `Break()` before handing
  anything over (`EmptyEnumeratorTest`):
  - `Break` dereferences the null `_nextSource`.
  - The NullReferenceException is stored.
  - The first `MoveNext` throws it; it does not return false.
  - Lemma: `RendezvousEnumerator.BreakFirstThrowsNullReference`.
- Rendezvous `AsyncEnumerator<T>`, `AsyncCoopEnumerator<T>`: a `MoveNext`
  after the final false never completes.
  - `MoveNext` never looks at `IsCompleted`.
  - It releases a `_yieldSource` that no body waits on.
  - Lemmas: `RendezvousEnumerator.PullAfterEndHangs`,
    `AsyncCoopEnumeratorChannel.PullAfterEndHangs`.
- Rendezvous `AsyncEnumerator<T>`: after the final false, `Current` holds
  `default(T)`. The builder's `SetResult(default)` calls `Return`, which sets
  `Current` again.
  - Lemma: `RendezvousEnumerator.BreakThenSetResultKeepsFalse`.
- `CoopTask`, a body that finishes before its first `Yield`:
  - `SetCompletion` sets `IsCompleted`.
  - It then dereferences the null `_nextSource`.
  - The exception is stored by the bootstrap frame.
  - Every `MoveNext` throws.
  - Lemma: `CoopTaskChannel.EmptyBodyStoresNullReference`.
- `AsyncCoopEnumerator<T>`, a body that returns `YieldReturn()` before its
  first `Yield`:
  - The NullReferenceException is dropped by the builder's `SetException`.
  - `MoveNext` answers true with `default(T)` forever.
  - Lemma: `AsyncCoopEnumeratorChannel.EmptyBodyNeverEnds`.
- `AsyncCoopEnumerator<T>` and both buffered enumerators without a stored
  exception: a body exception is lost. A waiting consumer is never woken, or
  the next `MoveNext` answers a plain false.
  - Lemmas: `AsyncCoopEnumeratorChannel.ThrowAfterOneValueIsLost`,
    `BufferedEnumerator.ThrowIsLost`, `ParallelEnumerator.ThrowIsLost`.
- `AsyncSequence<T>` and both buffered enumerators: a body that ends without
  `Break()` / `YieldReturn()` while the consumer waits leaves the consumer
  waiting for good. The builder's `SetResult` only sets `IsCompleted`.
  - Lemmas: `AsyncSequenceChannel.ReturnWithoutBreakStrandsConsumer`,
    `BufferedEnumerator.EndWithoutYieldReturnStrandsConsumer`,
    `ParallelEnumerator.EndWithoutYieldReturnStrandsConsumer`.

## Model

| member | source | states |
|---|---|---|
| `Tasks.TrySetResult` | src/AsyncEnumerator/AsyncEnumerator.cs:61 | a pending wait becomes `Done(b)`; a resolved one keeps its outcome (one-shot) |
| `Tasks.TrySetException` | src/AsyncEnumerator/AsyncSequence.cs:113 | a pending wait becomes faulted with the exception; a resolved one keeps its outcome |
| `Tasks.ResolveIfAny` | src/AsyncEnumerator/AsyncSequence.cs:58 | `_nextSource?.TrySetResult(b)`: a null field stays null, a present one is resolved one-shot |
| `Tasks.FaultIfAny` | src/AsyncEnumerator/AsyncEnumerator.cs:78 | `_nextSource?.TrySetException(e)`: a null field stays null, a present one is faulted one-shot |
| `Tasks.Observe` | src/AsyncEnumerator/AsyncEnumeratorExtensions.cs:11-13 | awaiting a MoveNext task: true gives the value read from Current, false the end, a fault its exception, and a pending task nothing |
| `AsyncSequenceChannel.State.MoveNextStart` | src/AsyncEnumerator/AsyncSequence.cs:31-46 | a stored exception is rethrown first with nothing changed; otherwise a queued head is dequeued into Current with an immediate true; an empty completed queue gives false with Current unchanged; otherwise a fresh pending `_nextSource` |
| `AsyncSequenceChannel.State.MoveNextResume` | src/AsyncEnumerator/AsyncSequence.cs:46-53 | after the wait: a faulted wait rethrows; a queued head is delivered; an empty queue gives `!IsCompleted` with Current unchanged |
| `AsyncSequenceChannel.State.Return` | src/AsyncEnumerator/AsyncSequence.cs:55-59 | appends at the tail and wakes a waiting consumer with true; nothing else changes |
| `AsyncSequenceChannel.State.Break` | src/AsyncEnumerator/AsyncSequence.cs:61-66 | sets IsCompleted and wakes a waiting consumer with false; the queue is kept |
| `AsyncSequenceChannel.State.SetException` | src/AsyncEnumerator/AsyncSequence.cs:110-114 | stores the exception and faults a waiting consumer's task; nothing else changes |
| `AsyncSequenceChannel.State.SetResult` | src/AsyncEnumerator/AsyncSequence.cs:136 | the builder's SetResult only sets IsCompleted |
| `AsyncSequenceChannel.State.AwaiterGetResult` | src/AsyncEnumerator/AsyncSequence.cs:107 | throws exactly when an exception is stored, and throws that one |
| `AsyncSequenceChannel.AsyncSequence.constructor` | src/AsyncEnumerator/AsyncSequence.cs:18-27 | empty queue, no wait, no exception, default Current, not completed |
| `AsyncSequenceChannel.AsyncSequence.MoveNextStart` | src/AsyncEnumerator/AsyncSequence.cs:31-46 | updates the fields in place exactly as `State.MoveNextStart` |
| `AsyncSequenceChannel.AsyncSequence.MoveNextResume` | src/AsyncEnumerator/AsyncSequence.cs:46-53 | updates the fields in place exactly as `State.MoveNextResume` |
| `AsyncSequenceChannel.AsyncSequence.Return` | src/AsyncEnumerator/AsyncSequence.cs:55-59 | in place, as `State.Return` |
| `AsyncSequenceChannel.AsyncSequence.Break` | src/AsyncEnumerator/AsyncSequence.cs:61-66 | in place, as `State.Break`, and returns default(T) |
| `AsyncSequenceChannel.AsyncSequence.SetException` | src/AsyncEnumerator/AsyncSequence.cs:110-114 | in place, as `State.SetException` |
| `AsyncSequenceChannel.AsyncSequence.SetResult` | src/AsyncEnumerator/AsyncSequence.cs:136 | in place, as `State.SetResult` |
| `AsyncSequenceChannel.AsyncSequence.AwaiterGetResult` | src/AsyncEnumerator/AsyncSequence.cs:107 | the result of `State.AwaiterGetResult` on the current fields |
| `AsyncSequenceChannel.StartSatisfiesInv` | src/AsyncEnumerator/AsyncSequence.cs:18-27 | a fresh sequence satisfies the session invariant |
| `AsyncSequenceChannel.StepIsFifo` | src/AsyncEnumerator/AsyncSequence.cs:31-66 | every step keeps the invariant; what is delivered plus what stays queued equals the old queue plus what was returned; false is seen only on an empty completed queue |
| `AsyncSequenceChannel.RunIsFifo` | src/AsyncEnumerator/AsyncSequence.cs:35-59 | FIFO over any interleaving: delivered values followed by the queue are the initial queue followed by every returned value, in order |
| `AsyncSequenceChannel.EndIsTerminal` | src/AsyncEnumerator/AsyncSequence.cs:41-42 | after the end nothing changes and every MoveNext answers false |
| `AsyncSequenceChannel.ExceptionIsSticky` | src/AsyncEnumerator/AsyncSequence.cs:33 | once stored, the exception stays, and every later MoveNext throws it |
| `AsyncSequenceChannel.ThrowWakesWaitingConsumer` | src/AsyncEnumerator/AsyncSequence.cs:110-114 | a body exception faults a waiting consumer, whose resumed MoveNext throws it |
| `AsyncSequenceChannel.ReturnWithoutBreakStrandsConsumer` | src/AsyncEnumerator/AsyncSequence.cs:136 | a body that returns without Break never wakes a waiting consumer |
| `AsyncSequenceChannel.ConsumerFirstTrace` | src/AsyncEnumeratorTests/AsyncSequenceTests.cs:20-36 | consumer waiting before each value: (true,1), (true,2), (true,3), false, then IsCompleted |
| `AsyncSequenceChannel.ProducerFirstTrace` | src/AsyncEnumeratorTests/AsyncSequenceTests.cs:66-79 | body finishing first: queued values are still delivered in order before false |
| `AsyncSequenceChannel.DrainFinished` | src/AsyncEnumerator/AsyncSequence.cs:35-42 | draining a finished sequence gives each queued value in order, then false |
| `AsyncSequenceChannel.HandOff` | src/AsyncEnumerator/AsyncSequence.cs:31-59 | a consumer waiting on an empty queue is woken by the next Return and receives exactly that value; the wait is left resolved with true |
| `AsyncSequenceChannel.QueuedThenPulled` | src/AsyncEnumerator/AsyncSequence.cs:31-59 | a value returned before the consumer asks is delivered by the next MoveNext at once |
| `AsyncSequenceChannel.BreakThenPull` | src/AsyncEnumerator/AsyncSequence.cs:31-66 | after Break, a MoveNext on the empty queue answers false and the sequence is completed |
| `RendezvousEnumerator.State.MoveNext` | src/AsyncEnumerator/AsyncEnumerator.cs:21-39 | stored exception rethrown first; the first call only marks started and answers true; later calls install a fresh wait, release the producer, and answer an immediate true exactly when there was no producer wait |
| `RendezvousEnumerator.State.Return` | src/AsyncEnumerator/AsyncEnumerator.cs:41-50 | Current becomes the value, a fresh producer wait is installed, a waiting consumer is woken with true |
| `RendezvousEnumerator.State.Pause` | src/AsyncEnumerator/AsyncEnumerator.cs:52-57 | marks started and installs a fresh producer wait; nothing else changes |
| `RendezvousEnumerator.State.Break` | src/AsyncEnumerator/AsyncEnumerator.cs:59-63 | resolves the consumer's wait with false and returns default; with a null `_nextSource` it throws NullReferenceException |
| `RendezvousEnumerator.State.GetAwaiter` | src/AsyncEnumerator/AsyncEnumerator.cs:67-71 | throws exactly when an exception is stored |
| `RendezvousEnumerator.State.SetException` | src/AsyncEnumerator/AsyncEnumerator.cs:75-79 | stores the exception and faults a waiting consumer; nothing else changes |
| `RendezvousEnumerator.State.SetCompletion` | src/AsyncEnumerator/AsyncEnumerator.cs:81 | only sets IsCompleted |
| `RendezvousEnumerator.State.SetResult` | src/AsyncEnumerator/AsyncEnumerator.cs:172-176 | SetCompletion then Return(value): completed, Current is the value, a waiting consumer woken with true |
| `RendezvousEnumerator.State.AwaiterIsCompleted` | src/AsyncEnumerator/AsyncEnumerator.cs:91 | mirrors IsCompleted |
| `RendezvousEnumerator.BreakThenSetResultKeepsFalse` | src/AsyncEnumerator/AsyncEnumerator.cs:172-176 | after Break answered false, the builder's SetResult cannot turn it into true; Current ends as default |
| `RendezvousEnumerator.AsyncEnumerator.constructor` | src/AsyncEnumerator/AsyncEnumerator.cs:143-150 | all fields null, false or default |
| `RendezvousEnumerator.AsyncEnumerator.MoveNext` | src/AsyncEnumerator/AsyncEnumerator.cs:21-39 | in place, as `State.MoveNext` |
| `RendezvousEnumerator.AsyncEnumerator.Return` | src/AsyncEnumerator/AsyncEnumerator.cs:41-50 | in place, as `State.Return` |
| `RendezvousEnumerator.AsyncEnumerator.Pause` | src/AsyncEnumerator/AsyncEnumerator.cs:52-57 | in place, as `State.Pause` |
| `RendezvousEnumerator.AsyncEnumerator.Break` | src/AsyncEnumerator/AsyncEnumerator.cs:59-63 | in place, as `State.Break` |
| `RendezvousEnumerator.AsyncEnumerator.GetAwaiter` | src/AsyncEnumerator/AsyncEnumerator.cs:67-71 | the result of `State.GetAwaiter` on the current fields |
| `RendezvousEnumerator.AsyncEnumerator.SetException` | src/AsyncEnumerator/AsyncEnumerator.cs:75-79 | in place, as `State.SetException` |
| `RendezvousEnumerator.AsyncEnumerator.SetCompletion` | src/AsyncEnumerator/AsyncEnumerator.cs:81 | in place, as `State.SetCompletion` |
| `RendezvousEnumerator.AsyncEnumerator.SetResult` | src/AsyncEnumerator/AsyncEnumerator.cs:172-176 | in place, SetCompletion followed by Return |
| `RendezvousEnumerator.Pull` | src/AsyncEnumerator/AsyncEnumerator.cs:21-23 | an awaited MoveNext on a channel with a stored exception throws it and changes nothing |
| `RendezvousEnumerator.PullHandsOver` | src/AsyncEnumerator/AsyncEnumerator.cs:31-50 | with the body waiting after its k-th value, a MoveNext releases it and receives the next value, or false after the last |
| `RendezvousEnumerator.PullsFromHandingOver` | src/AsyncEnumerator/AsyncEnumerator.cs:31-63 | from there on the consumer receives the remaining values in order, then false |
| `RendezvousEnumerator.LastPullEnds` | src/AsyncEnumerator/AsyncEnumerator.cs:21-63 | after the last value, one more MoveNext releases the body's Break and answers false |
| `RendezvousEnumerator.FirstPullHandsOver` | src/AsyncEnumerator/AsyncEnumerator.cs:25-29 | the first MoveNext answers true at once with the value the body returned during creation |
| `RendezvousEnumerator.PullAfterEndHangs` | src/AsyncEnumerator/AsyncEnumerator.cs:31-38 | after the final false, a further MoveNext never completes |
| `RendezvousEnumerator.HandsOverInOrder` | src/AsyncEnumerator/AsyncEnumerator.cs:21-63 | a body returning `vs` then breaking gives (true, v) for each v in order, then false, IsCompleted, and a hanging further MoveNext |
| `RendezvousEnumerator.ReturnOneTwoThreeTrace` | src/AsyncEnumeratorTests/AsyncEnumeratorTests.cs:19-36 | Return 1, 2, 3 and Break: 1, 2, 3, false, then IsCompleted |
| `RendezvousEnumerator.BreakFirstThrowsNullReference` | src/AsyncEnumeratorTests/AsyncEnumeratorTests.cs:57-65 | the empty enumerator's MoveNext throws NullReferenceException, on every call |
| `RendezvousEnumerator.ThrowAfterOneValueTrace` | src/AsyncEnumeratorTests/AsyncEnumeratorTests.cs:11-17 | a body returning 1 then throwing: 1, then the exception on every later MoveNext |
| `RendezvousEnumerator.ExceptionIsSticky` | src/AsyncEnumerator/AsyncEnumerator.cs:23 | with an exception stored, n MoveNext calls throw it n times and change nothing |
| `RendezvousEnumerator.PauseDefersFirstValue` | src/AsyncEnumerator/AsyncEnumerator.cs:52-57 | a body that pauses first: the first MoveNext waits for the real value instead of answering default |
| `CoopTaskChannel.State.MoveNext` | src/AsyncEnumerator/CoopTask.cs:20-38 | the rendezvous MoveNext without a payload: stored exception first, first call short-circuits, later calls release the producer |
| `CoopTaskChannel.State.Yield` | src/AsyncEnumerator/CoopTask.cs:40-47 | installs a fresh producer wait and wakes a waiting consumer with true |
| `CoopTaskChannel.State.Break` | src/AsyncEnumerator/CoopTask.cs:49-53 | resolves the consumer's wait with false; throws NullReferenceException when there is none |
| `CoopTaskChannel.State.GetAwaiter` | src/AsyncEnumerator/CoopTask.cs:57-61 | throws exactly when an exception is stored |
| `CoopTaskChannel.State.SetException` | src/AsyncEnumerator/CoopTask.cs:65-69 | stores the exception and faults a waiting consumer |
| `CoopTaskChannel.State.SetCompletion` | src/AsyncEnumerator/CoopTask.cs:71-75 | sets IsCompleted, then resolves the consumer's wait with false; throws after setting IsCompleted when there is none |
| `CoopTaskChannel.State.AwaiterIsCompleted` | src/AsyncEnumerator/CoopTask.cs:85 | mirrors IsCompleted |
| `CoopTaskChannel.State.AwaiterGetResult` | src/AsyncEnumerator/CoopTask.cs:87 | throws exactly when an exception is stored, and throws that one |
| `CoopTaskChannel.BreakThenCompletionKeepsFalse` | src/AsyncEnumerator/CoopTask.cs:71-75 | after Break answered false, completion cannot change it |
| `CoopTaskChannel.CoopTask.constructor` | src/AsyncEnumerator/CoopTask.cs:137-144 | all fields null or false |
| `CoopTaskChannel.CoopTask.MoveNext` | src/AsyncEnumerator/CoopTask.cs:20-38 | in place, as `State.MoveNext` |
| `CoopTaskChannel.CoopTask.Yield` | src/AsyncEnumerator/CoopTask.cs:40-47 | in place, as `State.Yield` |
| `CoopTaskChannel.CoopTask.Break` | src/AsyncEnumerator/CoopTask.cs:49-53 | in place, as `State.Break` |
| `CoopTaskChannel.CoopTask.GetAwaiter` | src/AsyncEnumerator/CoopTask.cs:57-61 | the result of `State.GetAwaiter` on the current fields |
| `CoopTaskChannel.CoopTask.SetException` | src/AsyncEnumerator/CoopTask.cs:65-69 | in place, as `State.SetException` |
| `CoopTaskChannel.CoopTask.SetCompletion` | src/AsyncEnumerator/CoopTask.cs:71-75 | in place, as `State.SetCompletion` |
| `CoopTaskChannel.Finish` | src/AsyncEnumerator/CoopTask.cs:166 | the builder's SetResult completes the task; an exception escapes exactly when there is no consumer wait |
| `CoopTaskChannel.Segment` | src/AsyncEnumerator/CoopTask.cs:40-75 | the body runs to its next Yield or its end; nothing escapes while a consumer wait exists |
| `CoopTaskChannel.Create` | src/AsyncEnumerator/CoopTask.cs:129-133 | the body runs inline during creation; a body that yields first stores no exception |
| `CoopTaskChannel.Pull` | src/AsyncEnumerator/CoopTask.cs:20-22 | a MoveNext on a task with a stored exception throws it and changes nothing |
| `CoopTaskChannel.PullYields` | src/AsyncEnumerator/CoopTask.cs:20-47 | with the body in its k-th Yield, a MoveNext answers true, or false after the last Yield |
| `CoopTaskChannel.PullsFromYielding` | src/AsyncEnumerator/CoopTask.cs:20-75 | from the k-th Yield on, the remaining MoveNext calls answer true, then false |
| `CoopTaskChannel.YieldsThenCompletes` | src/AsyncEnumerator/CoopTask.cs:20-75 | a body yielding n > 0 times: n trues, then false, then IsCompleted |
| `CoopTaskChannel.ThreeYieldsTrace` | src/AsyncEnumeratorTests/CoopTaskTests.cs:19-31 | three Yields: the fourth MoveNext answers false and IsCompleted holds |
| `CoopTaskChannel.ThrowAfterOneYieldTrace` | src/AsyncEnumeratorTests/CoopTaskTests.cs:11-17 | a body throwing after one Yield: true, then the exception on every later MoveNext |
| `CoopTaskChannel.EmptyBodyStoresNullReference` | src/AsyncEnumerator/CoopTask.cs:71-75 | a body with no Yield: completed, NullReferenceException stored, every MoveNext throws it |
| `AsyncCoopEnumeratorChannel.State.MoveNext` | src/AsyncEnumerator/AsyncEnumerator/AsyncCoopEnumerator.cs:27-43 | no exception check; the first call short-circuits; later calls install a wait, release the producer, and answer at once only without a producer wait |
| `AsyncCoopEnumeratorChannel.State.Yield` | src/AsyncEnumerator/AsyncEnumerator/AsyncCoopEnumerator.cs:45-54 | Current becomes the value, a fresh producer wait, a waiting consumer woken with true |
| `AsyncCoopEnumeratorChannel.State.YieldInit` | src/AsyncEnumerator/AsyncEnumerator/AsyncCoopEnumerator.cs:56-61 | marks started and installs a producer wait; nothing else changes |
| `AsyncCoopEnumeratorChannel.State.YieldReturn` | src/AsyncEnumerator/AsyncEnumerator/AsyncCoopEnumerator.cs:63-67 | resolves the consumer's wait with false and returns default; throws NullReferenceException when there is none |
| `AsyncCoopEnumeratorChannel.State.SetResult` | src/AsyncEnumerator/AsyncEnumerator/AsyncCoopEnumerator.cs:162-167 | records Result, sets IsCompleted, then Yield(value) |
| `AsyncCoopEnumeratorChannel.State.SetException` | src/AsyncEnumerator/AsyncEnumerator/AsyncCoopEnumerator.cs:160 | only sets IsCompleted; the exception is dropped |
| `AsyncCoopEnumeratorChannel.State.AwaiterIsCompleted` | src/AsyncEnumerator/AsyncEnumerator/AsyncCoopEnumerator.cs:86 | mirrors IsCompleted |
| `AsyncCoopEnumeratorChannel.State.AwaiterGetResult` | src/AsyncEnumerator/AsyncEnumerator/AsyncCoopEnumerator.cs:90 | returns Result |
| `AsyncCoopEnumeratorChannel.YieldReturnThenSetResultKeepsFalse` | src/AsyncEnumerator/AsyncEnumerator/AsyncCoopEnumerator.cs:162-167 | after YieldReturn answered false, the builder's SetResult cannot turn it into true |
| `AsyncCoopEnumeratorChannel.AsyncCoopEnumerator.constructor` | src/AsyncEnumerator/AsyncEnumerator/AsyncCoopEnumerator.cs:11-23 | all fields null, false or default |
| `AsyncCoopEnumeratorChannel.AsyncCoopEnumerator.MoveNext` | src/AsyncEnumerator/AsyncEnumerator/AsyncCoopEnumerator.cs:27-43 | in place, as `State.MoveNext` |
| `AsyncCoopEnumeratorChannel.AsyncCoopEnumerator.Yield` | src/AsyncEnumerator/AsyncEnumerator/AsyncCoopEnumerator.cs:45-54 | in place, as `State.Yield` |
| `AsyncCoopEnumeratorChannel.AsyncCoopEnumerator.YieldInit` | src/AsyncEnumerator/AsyncEnumerator/AsyncCoopEnumerator.cs:56-61 | in place, as `State.YieldInit` |
| `AsyncCoopEnumeratorChannel.AsyncCoopEnumerator.YieldReturn` | src/AsyncEnumerator/AsyncEnumerator/AsyncCoopEnumerator.cs:63-67 | in place, as `State.YieldReturn` |
| `AsyncCoopEnumeratorChannel.AsyncCoopEnumerator.SetResult` | src/AsyncEnumerator/AsyncEnumerator/AsyncCoopEnumerator.cs:162-167 | in place, as `State.SetResult` |
| `AsyncCoopEnumeratorChannel.AsyncCoopEnumerator.SetException` | src/AsyncEnumerator/AsyncEnumerator/AsyncCoopEnumerator.cs:160 | in place, as `State.SetException` |
| `AsyncCoopEnumeratorChannel.AsyncCoopEnumerator.AwaiterGetResult` | src/AsyncEnumerator/AsyncEnumerator/AsyncCoopEnumerator.cs:90 | returns Result |
| `AsyncCoopEnumeratorChannel.Segment` | src/AsyncEnumerator/AsyncEnumerator/AsyncCoopEnumerator.cs:160-167 | however the body ends, the enumerator is completed afterwards |
| `AsyncCoopEnumeratorChannel.PullHandsOver` | src/AsyncEnumerator/AsyncEnumerator/AsyncCoopEnumerator.cs:35-54 | with the body waiting after its k-th value, a MoveNext receives the next value, or false after the last |
| `AsyncCoopEnumeratorChannel.PullsFromHandingOver` | src/AsyncEnumerator/AsyncEnumerator/AsyncCoopEnumerator.cs:35-67 | from there on the remaining values arrive in order, then false |
| `AsyncCoopEnumeratorChannel.LastPullEnds` | src/AsyncEnumerator/AsyncEnumerator/AsyncCoopEnumerator.cs:27-67 | after the last value, one more MoveNext runs YieldReturn and answers false |
| `AsyncCoopEnumeratorChannel.FirstPullHandsOver` | src/AsyncEnumerator/AsyncEnumerator/AsyncCoopEnumerator.cs:29-33 | the first MoveNext answers true at once with the first yielded value |
| `AsyncCoopEnumeratorChannel.PullAfterEndHangs` | src/AsyncEnumerator/AsyncEnumerator/AsyncCoopEnumerator.cs:35-42 | after the final false, a further MoveNext never completes |
| `AsyncCoopEnumeratorChannel.HandsOverInOrder` | src/AsyncEnumerator/AsyncEnumerator/AsyncCoopEnumerator.cs:27-67 | a body yielding `vs` then YieldReturn: each value in order, false, IsCompleted, GetResult is default, and a hanging further MoveNext |
| `AsyncCoopEnumeratorChannel.YieldOneTwoThreeTrace` | src/AsyncEnumeratorTests/AsyncCoopEnumeratorTests.cs:11-28 | Yield 1, 2, 3 and YieldReturn: 1, 2, 3, false, then IsCompleted |
| `AsyncCoopEnumeratorChannel.EmptyBodyNeverEnds` | src/AsyncEnumerator/AsyncEnumerator/AsyncCoopEnumerator.cs:160 | a body returning YieldReturn() first: completed, yet every MoveNext answers true with default |
| `AsyncCoopEnumeratorChannel.StartedEmptyNeverEnds` | src/AsyncEnumerator/AsyncEnumerator/AsyncCoopEnumerator.cs:35-40 | started with no producer wait, every MoveNext answers true with Current |
| `AsyncCoopEnumeratorChannel.ThrowAfterOneValueIsLost` | src/AsyncEnumerator/AsyncEnumerator/AsyncCoopEnumerator.cs:160 | a body throwing after one value: the value, then a MoveNext that never completes, though IsCompleted holds |
| `BufferedEnumerator.State.MoveNextStart` | src/AsyncEnumerator/AsyncEnumerator/AsyncEnumerator.cs:33-46 | a queued head is dequeued with an immediate true; an empty completed queue gives false; otherwise a fresh pending wait |
| `BufferedEnumerator.State.MoveNextResume` | src/AsyncEnumerator/AsyncEnumerator/AsyncEnumerator.cs:46-57 | after the wait: the queued head, or `!IsCompleted` with Current unchanged |
| `BufferedEnumerator.State.Yield` | src/AsyncEnumerator/AsyncEnumerator/AsyncEnumerator.cs:60-64 | appends at the tail and wakes a waiting consumer with true |
| `BufferedEnumerator.State.YieldReturn` | src/AsyncEnumerator/AsyncEnumerator/AsyncEnumerator.cs:66-71 | sets IsCompleted, wakes a waiting consumer with false, returns default |
| `BufferedEnumerator.State.SetResult` | src/AsyncEnumerator/AsyncEnumerator/AsyncEnumerator.cs:145-149 | records Result and sets IsCompleted; nothing else |
| `BufferedEnumerator.State.SetException` | src/AsyncEnumerator/AsyncEnumerator/AsyncEnumerator.cs:143 | only sets IsCompleted |
| `BufferedEnumerator.State.AwaiterIsCompleted` | src/AsyncEnumerator/AsyncEnumerator/AsyncEnumerator.cs:90 | mirrors IsCompleted |
| `BufferedEnumerator.State.AwaiterGetResult` | src/AsyncEnumerator/AsyncEnumerator/AsyncEnumerator.cs:94 | returns Result |
| `BufferedEnumerator.AsyncEnumerator.constructor` | src/AsyncEnumerator/AsyncEnumerator/AsyncEnumerator.cs:15-27 | empty queue, no wait, default Current and Result, not completed |
| `BufferedEnumerator.AsyncEnumerator.MoveNextStart` | src/AsyncEnumerator/AsyncEnumerator/AsyncEnumerator.cs:33-46 | in place, as `State.MoveNextStart` |
| `BufferedEnumerator.AsyncEnumerator.MoveNextResume` | src/AsyncEnumerator/AsyncEnumerator/AsyncEnumerator.cs:46-57 | in place, as `State.MoveNextResume` |
| `BufferedEnumerator.AsyncEnumerator.Yield` | src/AsyncEnumerator/AsyncEnumerator/AsyncEnumerator.cs:60-64 | in place, as `State.Yield` |
| `BufferedEnumerator.AsyncEnumerator.YieldReturn` | src/AsyncEnumerator/AsyncEnumerator/AsyncEnumerator.cs:66-71 | in place, as `State.YieldReturn` |
| `BufferedEnumerator.AsyncEnumerator.SetResult` | src/AsyncEnumerator/AsyncEnumerator/AsyncEnumerator.cs:145-149 | in place, as `State.SetResult` |
| `BufferedEnumerator.AsyncEnumerator.SetException` | src/AsyncEnumerator/AsyncEnumerator/AsyncEnumerator.cs:143 | in place, as `State.SetException` |
| `BufferedEnumerator.AsyncEnumerator.AwaiterGetResult` | src/AsyncEnumerator/AsyncEnumerator/AsyncEnumerator.cs:94 | returns Result |
| `BufferedEnumerator.StartSatisfiesInv` | src/AsyncEnumerator/AsyncEnumerator/AsyncEnumerator.cs:15-27 | a fresh enumerator satisfies the session invariant |
| `BufferedEnumerator.StepIsFifo` | src/AsyncEnumerator/AsyncEnumerator/AsyncEnumerator.cs:33-71 | every step keeps the invariant and conserves values in order; a resumed true always finds a value; false only on an empty completed queue |
| `BufferedEnumerator.RunIsFifo` | src/AsyncEnumerator/AsyncEnumerator/AsyncEnumerator.cs:35-64 | FIFO over any interleaving |
| `BufferedEnumerator.EndIsTerminal` | src/AsyncEnumerator/AsyncEnumerator/AsyncEnumerator.cs:41-42 | after the end nothing changes and every MoveNext answers false |
| `BufferedEnumerator.EndWithoutYieldReturnStrandsConsumer` | src/AsyncEnumerator/AsyncEnumerator/AsyncEnumerator.cs:143-149 | a body ending without YieldReturn never wakes a waiting consumer |
| `BufferedEnumerator.ThrowIsLost` | src/AsyncEnumerator/AsyncEnumerator/AsyncEnumerator.cs:143 | a body exception strands a waiting consumer, or turns into a plain false |
| `BufferedEnumerator.ProducerFirstTrace` | src/AsyncEnumeratorTests/AsyncCoopEnumeratorTests.cs:75-98 | body finishing first: its three values in order, false, IsCompleted, GetResult is default |
| `BufferedEnumerator.ProduceAhead` | src/AsyncEnumerator/AsyncEnumerator/AsyncEnumerator.cs:60-71 | three Yields and YieldReturn with nobody waiting leave the values queued in order, completed, Result default |
| `BufferedEnumerator.DrainThree` | src/AsyncEnumerator/AsyncEnumerator/AsyncEnumerator.cs:33-58 | four MoveNexts on a completed enumerator holding three values give them in order, then false, without waiting |
| `BufferedEnumerator.HandOff` | src/AsyncEnumerator/AsyncEnumerator/AsyncEnumerator.cs:44-64 | a consumer waiting on an empty queue is woken by Yield and receives exactly that value |
| `BufferedEnumerator.LastHandOff` | src/AsyncEnumerator/AsyncEnumerator/AsyncEnumerator.cs:66-71 | a consumer waiting on an empty queue is woken with false by YieldReturn; Result is default |
| `BufferedEnumerator.ConsumerFirstTrace` | src/AsyncEnumerator/AsyncEnumerator/AsyncEnumerator.cs:44-71 | consumer waiting before each value: the three values in order, false, IsCompleted |
| `ParallelEnumerator.State.MoveNextStart` | src/AsyncEnumerator/AsyncParallelEnumerator.cs:35-48 | a queued head is dequeued with an immediate true; an empty completed queue gives false; otherwise a fresh pending wait |
| `ParallelEnumerator.State.MoveNextResume` | src/AsyncEnumerator/AsyncParallelEnumerator.cs:48-59 | after the wait: the queued head, or `!IsCompleted` with Current unchanged |
| `ParallelEnumerator.State.Yield` | src/AsyncEnumerator/AsyncParallelEnumerator.cs:62-66 | appends at the tail and wakes a waiting consumer with true |
| `ParallelEnumerator.State.YieldReturn` | src/AsyncEnumerator/AsyncParallelEnumerator.cs:68-73 | sets IsCompleted, wakes a waiting consumer with false, returns default |
| `ParallelEnumerator.State.SetResult` | src/AsyncEnumerator/AsyncParallelEnumerator.cs:145 | only sets IsCompleted |
| `ParallelEnumerator.State.SetException` | src/AsyncEnumerator/AsyncParallelEnumerator.cs:143 | only sets IsCompleted |
| `ParallelEnumerator.State.AwaiterIsCompleted` | src/AsyncEnumerator/AsyncParallelEnumerator.cs:92 | mirrors IsCompleted |
| `ParallelEnumerator.AsyncParallelEnumerator.constructor` | src/AsyncEnumerator/AsyncParallelEnumerator.cs:23-31 | empty queue, no wait, default Current, not completed |
| `ParallelEnumerator.AsyncParallelEnumerator.MoveNextStart` | src/AsyncEnumerator/AsyncParallelEnumerator.cs:35-48 | in place, as `State.MoveNextStart` |
| `ParallelEnumerator.AsyncParallelEnumerator.MoveNextResume` | src/AsyncEnumerator/AsyncParallelEnumerator.cs:48-59 | in place, as `State.MoveNextResume` |
| `ParallelEnumerator.AsyncParallelEnumerator.Yield` | src/AsyncEnumerator/AsyncParallelEnumerator.cs:62-66 | in place, as `State.Yield` |
| `ParallelEnumerator.AsyncParallelEnumerator.YieldReturn` | src/AsyncEnumerator/AsyncParallelEnumerator.cs:68-73 | in place, as `State.YieldReturn` |
| `ParallelEnumerator.AsyncParallelEnumerator.SetResult` | src/AsyncEnumerator/AsyncParallelEnumerator.cs:145 | in place, as `State.SetResult` |
| `ParallelEnumerator.AsyncParallelEnumerator.SetException` | src/AsyncEnumerator/AsyncParallelEnumerator.cs:143 | in place, as `State.SetException` |
| `ParallelEnumerator.StartSatisfiesInv` | src/AsyncEnumerator/AsyncParallelEnumerator.cs:23-31 | a fresh enumerator satisfies the session invariant |
| `ParallelEnumerator.StepIsFifo` | src/AsyncEnumerator/AsyncParallelEnumerator.cs:35-73 | every step keeps the invariant and conserves values in order; a resumed true always finds a value; false only on an empty completed queue |
| `ParallelEnumerator.RunIsFifo` | src/AsyncEnumerator/AsyncParallelEnumerator.cs:37-66 | FIFO over any interleaving |
| `ParallelEnumerator.EndIsTerminal` | src/AsyncEnumerator/AsyncParallelEnumerator.cs:43-44 | after the end nothing changes and every MoveNext answers false |
| `ParallelEnumerator.EndWithoutYieldReturnStrandsConsumer` | src/AsyncEnumerator/AsyncParallelEnumerator.cs:143-145 | a body ending without YieldReturn never wakes a waiting consumer |
| `ParallelEnumerator.ThrowIsLost` | src/AsyncEnumerator/AsyncParallelEnumerator.cs:143 | a body exception strands a waiting consumer, or turns into a plain false |
| `ParallelEnumerator.ProducerFirstTrace` | src/AsyncEnumerator/AsyncParallelEnumerator.cs:35-73 | body yielding three values and finishing first: the values in order, false, IsCompleted |
| `ParallelEnumerator.ProduceAhead` | src/AsyncEnumerator/AsyncParallelEnumerator.cs:62-73 | three Yields and YieldReturn with nobody waiting leave the values queued in order, completed |
| `ParallelEnumerator.DrainThree` | src/AsyncEnumerator/AsyncParallelEnumerator.cs:35-60 | four MoveNexts on a completed enumerator holding three values give them in order, then false, without waiting |
| `ParallelEnumerator.HandOff` | src/AsyncEnumerator/AsyncParallelEnumerator.cs:46-66 | a consumer waiting on an empty queue is woken by Yield and receives exactly that value |
| `ParallelEnumerator.LastHandOff` | src/AsyncEnumerator/AsyncParallelEnumerator.cs:68-73 | a consumer waiting on an empty queue is woken with false by YieldReturn |
| `ParallelEnumerator.ConsumerFirstTrace` | src/AsyncEnumerator/AsyncParallelEnumerator.cs:46-73 | consumer waiting before each value: the three values in order, false, IsCompleted |
| `TaskProviderSlot.TaskProviderAwaiter.constructor` | src/AsyncEnumerator/TaskProvider.cs:15 | a new awaiter's slot is null |
| `TaskProviderSlot.TaskProviderAwaiter.IsCompleted` | src/AsyncEnumerator/TaskProvider.cs:17 | completed exactly when the slot is filled |
| `TaskProviderSlot.TaskProviderAwaiter.GetResult` | src/AsyncEnumerator/TaskProvider.cs:19 | the slot's content, present exactly when completed |
| `TaskProviderSlot.TaskProviderAwaiter.OnCompleted` | src/AsyncEnumerator/TaskProvider.cs:21 | always throws InvalidOperationException |
| `TaskProviderSlot.TaskProviderAwaiter.OnCompletedWith` | src/AsyncEnumerator/TaskProvider.cs:23-27 | stores the channel, then runs the continuation, which sees the awaiter completed with that channel |
| `TaskProviderSlot.TaskProvider.GetAwaiter` | src/AsyncEnumerator/TaskProvider.cs:11 | a new, not completed awaiter on every call |
| `TaskProviderSlot.Bootstrap` | src/AsyncEnumerator/TaskProvider.cs:11-27 | incomplete before, completed after, and the body receives exactly the channel the builder passed |
| `TaskProviderSlot.PlainOnCompletedFails` | src/AsyncEnumerator/TaskProvider.cs:21 | the plain path throws and the awaiter stays incomplete |
| `TaskProviderSlot.AwaitersAreIndependent` | src/AsyncEnumerator/TaskProvider.cs:9-11 | two bodies bootstrapping through the shared provider each receive their own channel |
| `ForeachLoop.Foreach` | src/AsyncEnumerator/AsyncEnumeratorExtensions.cs:9-14 | the action runs at most once per MoveNext answer |
| `ForeachLoop.AppliesAnsweredValues` | src/AsyncEnumerator/AsyncEnumeratorExtensions.cs:11-13 | the i-th value acted on is the i-th MoveNext's value; the loop passes a value only when the action's task on it completed |
| `ForeachLoop.ForeachAsync` | src/AsyncEnumerator/AsyncEnumeratorExtensions.cs:9-14 | the while loop computes exactly the values and the outcome of `Foreach` |
| `ForeachLoop.ForeachStep` | src/AsyncEnumerator/AsyncEnumeratorExtensions.cs:11-13 | a true answer with a completed action moves on to the next MoveNext |
| `ForeachLoop.ForeachStop` | src/AsyncEnumerator/AsyncEnumeratorExtensions.cs:11-13 | the iteration that ends the loop: false completes, a MoveNext exception fails, an action outcome other than completion ends it |
| `ForeachLoop.ForeachAsyncAction` | src/AsyncEnumerator/AsyncEnumeratorExtensions.cs:17-22 | the synchronous-action loop is the same loop; it stalls only on a MoveNext that never completes or past the answers |
| `ForeachLoop.NeverStallsOnAction` | src/AsyncEnumerator/AsyncEnumeratorExtensions.cs:17-22 | a synchronous action never holds the loop |
| `ForeachLoop.StopsAtFirstFalse` | src/AsyncEnumerator/AsyncEnumeratorExtensions.cs:11 | the action runs on exactly the values before the first false, in order; later answers are never consulted |
| `ForeachLoop.MoveNextExceptionPropagates` | src/AsyncEnumerator/AsyncEnumeratorExtensions.cs:9-14 | an exception from MoveNext ends the loop with that exception |
| `ForeachLoop.ActionOutcomeEndsLoop` | src/AsyncEnumerator/AsyncEnumeratorExtensions.cs:13 | an action that throws or never completes ends or holds the loop; no further MoveNext is issued |
| `ForeachLoop.ForeachOverRendezvous` | src/AsyncEnumerator/AsyncEnumeratorExtensions.cs:11-13 | over a rendezvous enumerator whose body returns `vs` and breaks, the action runs on exactly `vs`, in order, and the loop completes |
| `ForeachLoop.ThrowsOnMoveNextTest` | src/AsyncEnumeratorTests/AsyncEnumeratorTests.cs:11-17 | `while (await MoveNext()) {}` over a body that returns 1 and throws ends with that exception |
| `ForeachLoop.ForeachOverFinishedSequence` | src/AsyncEnumerator/AsyncEnumeratorExtensions.cs:19-22 | over a finished AsyncSequence the action sees exactly the queued values, in enqueue order, and the loop completes |

## Left out

- Builder plumbing is not modelled: `Create`, `Start`, `SetStateMachine` and
  the `AwaitOnCompleted` dispatch. Only their effect on the channel is modelled,
  through `SetResult` and `SetException`, plus the inline run of the body
  during creation for the rendezvous channels.
- Task scheduling (`Task.Run`, inline continuations) is not modelled. For the
  buffered channels, producer steps are arbitrary interleaved events.
- Cross-thread races are not modelled: `ConcurrentQueue` thread safety, and the
  race between the `IsCompleted` check and the assignment of `_nextSource`.
  The part of a buffered `MoveNext` before its `await` is one atomic step.
- Exception identity (`ExceptionDispatchInfo`, stack traces) is not modelled:
  an exception is an opaque value.
- The nested `TaskProvider` classes inside each channel file are not modelled
  separately. They have the same shape as src/AsyncEnumerator/TaskProvider.cs,
  which is modelled. TaskLikeObservable, the interface and abstract shells, the
  example programs and the awaiters' forwarding `OnCompleted` are not part of
  this model.
- `TaskProviderSlot.TaskProviderAwaiter.IsCompleted`: `_task != null` is
  modelled as "the slot was filled". For a value type `TOutput` the C# test is
  always true; the library only instantiates it with channel classes.
- The rendezvous awaiter's `GetResult` is a no-op and has no member of its
  own; its `IsCompleted` is `RendezvousEnumerator.State.AwaiterIsCompleted`.
- `IAsyncEnumerator` declares `MoveNextAsync` while the classes define
  `MoveNext`. The model uses the classes' `MoveNext`.
- The copy of `ForeachAsync` inside AsyncCoopEnumerator.cs is not modelled
  separately. It is textually the same as the one in
  AsyncEnumeratorExtensions.cs.
- `RendezvousEnumerator.State.Break`, `CoopTaskChannel.State.Break`,
  `CoopTaskChannel.State.SetCompletion` and
  `AsyncCoopEnumeratorChannel.State.YieldReturn` have no null precondition. The
  unchecked `_nextSource` dereference is modelled as a thrown
  NullReferenceException, because bodies do reach it.
- Cancellation, disposal and a `Where` operator are not modelled. They are not
  implemented in the core.
- `ForeachLoop.Foreach` sees the enumerator as the sequence of answers its
  awaited MoveNext calls give, and sees the action through the outcome of its
  task. The actual enumerator object is connected to the loop only through the
  lemmas over the rendezvous enumerator and the sequence.
