/** The host machinery every channel is built on, reduced to what the channels
    rely on: a TaskCompletionSource<bool> is a one-shot cell, an exception is an
    opaque value, and a consumer that awaits MoveNext sees one of a few outcomes. */
module Tasks {

  datatype Option<+T> = None | Some(value: T)

  /** An exception, as an opaque value. */
  datatype Error =
    | Raised(id: nat)     // thrown by a producer body
    | NullReference       // a member called through a null reference
    | InvalidOperation    // InvalidOperationException thrown by the library itself

  /** A TaskCompletionSource<bool>, or the Task it exposes. */
  datatype Cell = Pending | Done(result: bool) | Faulted(error: Error)
  {
    predicate IsResolved() { !Pending? }
  }

  /** TrySetResult: only a pending cell is resolved; a resolved one keeps its outcome. */
  function TrySetResult(c: Cell, b: bool): (r: Cell)
    ensures r.IsResolved()
    ensures c.IsResolved() ==> r == c
    ensures c.Pending? ==> r.Done? && r.result == b
  {
    if c.Pending? then Done(b) else c
  }

  /** TrySetException: only a pending cell becomes faulted. */
  function TrySetException(c: Cell, e: Error): (r: Cell)
    ensures r.IsResolved()
    ensures c.IsResolved() ==> r == c
    ensures c.Pending? ==> r.Faulted? && r.error == e
  {
    if c.Pending? then Faulted(e) else c
  }

  /** `source?.TrySetResult(b)` on a field that may be null. */
  function ResolveIfAny(source: Option<Cell>, b: bool): (r: Option<Cell>)
    ensures r.None? <==> source.None?
    ensures source.Some? ==> r.value == TrySetResult(source.value, b)
  {
    match source
    case None => None
    case Some(c) => Some(TrySetResult(c, b))
  }

  /** `source?.TrySetException(e)` on a field that may be null. */
  function FaultIfAny(source: Option<Cell>, e: Error): (r: Option<Cell>)
    ensures r.None? <==> source.None?
    ensures source.Some? ==> r.value == TrySetException(source.value, e)
  {
    match source
    case None => None
    case Some(c) => Some(TrySetException(c, e))
  }

  /** The outcome of a synchronous call that may throw. */
  datatype Call<+T> = Returned(value: T) | Threw(error: Error)

  /** What a consumer sees when it awaits one MoveNext: true with the value it
      then reads from Current, false, an exception, or a task that never
      completes. */
  datatype Observation<+T> = Next(value: T) | End | Throws(error: Error) | Hangs

  /** What awaiting a task of bool yields, when true is followed by a read of Current. */
  function Observe<T>(task: Cell, current: T): (o: Observation<T>)
    ensures o.Next? <==> task == Done(true)
    ensures o.End? <==> task == Done(false)
    ensures o.Throws? <==> task.Faulted?
    ensures o.Next? ==> o.value == current
    ensures o.Throws? ==> o.error == task.error
  {
    match task
    case Pending => Hangs
    case Done(b) => if b then Next(current) else End
    case Faulted(e) => Throws(e)
  }

  /** The values handed to the consumer, in order, in a run whose steps each
      observe at most one MoveNext. */
  function Delivered<T>(obs: seq<Option<Observation<T>>>): (vs: seq<T>)
    ensures |vs| <= |obs|
  {
    if obs == [] then []
    else (if obs[0].Some? && obs[0].value.Next? then [obs[0].value.value] else []) + Delivered(obs[1..])
  }

  lemma DeliveredAppend<T>(a: seq<Option<Observation<T>>>, b: seq<Option<Observation<T>>>)
    ensures Delivered(a + b) == Delivered(a) + Delivered(b)
  {
    if a == [] {
      assert a + b == b;
    } else {
      assert (a + b)[0] == a[0];
      assert (a + b)[1..] == a[1..] + b;
      DeliveredAppend(a[1..], b);
    }
  }

  /** Two consecutive conservation steps compose: if `d1` delivered and `q1` left
      queued account for `q` plus `p1` produced, and likewise for the next stretch,
      the two stretches together account for `q` plus everything produced. */
  lemma SplicePrefixes<T>(d1: seq<T>, d2: seq<T>, q: seq<T>, q1: seq<T>, q2: seq<T>, p1: seq<T>, p2: seq<T>)
    requires d1 + q1 == q + p1
    requires d2 + q2 == q1 + p2
    ensures (d1 + d2) + q2 == q + (p1 + p2)
  {
    calc {
      (d1 + d2) + q2;
      d1 + (d2 + q2);
      d1 + (q1 + p2);
      (d1 + q1) + p2;
      (q + p1) + p2;
    }
  }

}
