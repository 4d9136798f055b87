/**
 * The sink's buffer policy as functions on sequences: the filter applied by
 * Emit, the evict-then-append unit of work applied by ProcessLogEvent, and the
 * loop of EmitBatchAsync. The methods of Sink.ObservableCollectionSink are
 * proved against these; the lemmas here say what the policy guarantees.
 */
module SinkSpec {
  import opened Wrappers
  import opened Events

  /** The exceptions the sink can raise. */
  datatype Exception =
    | ArgumentNullException(paramName: string)
    | ArgumentOutOfRangeException(paramName: string)

  function Max(a: int, b: int): (m: int)
    ensures m >= a && m >= b && (m == a || m == b)
  {
    if a < b then b else a
  }

  /** The last `n` elements of `s`, in order (all of `s` when it is no longer than `n`). */
  function Window<T>(s: seq<T>, n: nat): (w: seq<T>)
    ensures |w| == if |s| <= n then |s| else n
  {
    if |s| <= n then s else s[|s| - n..]
  }

  /** The events of a batch that are not null, in batch order. */
  function Present(batch: seq<Option<LogEvent>>): (events: seq<LogEvent>)
    ensures |events| <= |batch|
    ensures forall e :: e in events <==> Some(e) in batch
  {
    if batch == [] then []
    else
      assert batch == [batch[0]] + batch[1..];
      match batch[0]
      case None => Present(batch[1..])
      case Some(e) => [e] + Present(batch[1..])
  }

  /**
   * The unit of work ProcessLogEvent hands to the dispatcher: when the
   * collection already holds `max` or more events, RemoveAt(0), then Add.
   * RemoveAt(0) on an empty collection throws, which happens exactly when the
   * collection is empty and `max` is not positive. Otherwise the result is the
   * newest Max(|buffer|, max) events of `buffer + [e]`: at most one event, the
   * oldest, is dropped, and the rest keep their order.
   */
  function Insert(buffer: seq<LogEvent>, e: LogEvent, max: int): (r: Result<seq<LogEvent>, Exception>)
    ensures r.Failure? <==> buffer == [] && max <= 0
    ensures r.Failure? ==> r.error == ArgumentOutOfRangeException("index")
    ensures r.Success? ==> r.value == Window(buffer + [e], Max(|buffer|, max))
  {
    if |buffer| >= max then
      if buffer == [] then Failure(ArgumentOutOfRangeException("index"))
      else
        assert buffer[1..] + [e] == (buffer + [e])[1..];
        Success(buffer[1..] + [e])
    else Success(buffer + [e])
  }

  /** Emit's filter: a non-null event at or above the minimum level, with batching off. */
  predicate Accepts(e: Option<LogEvent>, minimumLevel: LogEventLevel, enableBatching: bool)
  {
    e.Some? && !e.value.level.Below(minimumLevel) && !enableBatching
  }

  /** The collection after Emit(e), or the exception Emit throws. */
  function EmitResult(buffer: seq<LogEvent>, e: Option<LogEvent>, minimumLevel: LogEventLevel,
                      enableBatching: bool, max: int): (r: Result<seq<LogEvent>, Exception>)
    ensures e.None? || e.value.level.Below(minimumLevel) || enableBatching ==> r == Success(buffer)
    ensures r.Failure? <==> Accepts(e, minimumLevel, enableBatching) && buffer == [] && max <= 0
    ensures Accepts(e, minimumLevel, enableBatching) && r.Success? ==>
              r.value == Window(buffer + [e.value], Max(|buffer|, max))
  {
    if Accepts(e, minimumLevel, enableBatching) then Insert(buffer, e.value, max) else Success(buffer)
  }

  /**
   * The collection after EmitBatchAsync(batch): every non-null element goes
   * through Insert in batch order, with no level or batching check; the first
   * exception ends the loop.
   */
  function InsertAll(buffer: seq<LogEvent>, batch: seq<Option<LogEvent>>, max: int): (r: Result<seq<LogEvent>, Exception>)
    ensures r.Failure? ==> buffer == [] && max <= 0 && r.error == ArgumentOutOfRangeException("index")
    ensures r.Success? ==> |r.value| >= |buffer|
    decreases |batch|
  {
    if batch == [] then Success(buffer)
    else match batch[0]
      case None => InsertAll(buffer, batch[1..], max)
      case Some(e) =>
        match Insert(buffer, e, max)
        case Failure(x) => Failure(x)
        case Success(b) => InsertAll(b, batch[1..], max)
  }

  /** Taking the newest `n` twice is taking them once. */
  lemma WindowAppend<T>(s: seq<T>, t: seq<T>, n: nat)
    ensures Window(Window(s, n) + t, n) == Window(s + t, n)
  {
  }

  /**
   * What a batch whose non-null events are `present` does to the collection,
   * in closed form: it throws exactly when the collection is empty, `max` is
   * not positive and there is something to insert; otherwise the collection
   * ends as the newest Max(|buffer|, max) events of the old contents followed
   * by `present`.
   */
  function BatchEffect(buffer: seq<LogEvent>, present: seq<LogEvent>, max: int): (r: Result<seq<LogEvent>, Exception>)
  {
    if buffer == [] && max <= 0 && present != [] then Failure(ArgumentOutOfRangeException("index"))
    else Success(Window(buffer + present, Max(|buffer|, max)))
  }

  /** EmitBatchAsync's loop has the closed-form effect BatchEffect. */
  lemma {:induction false} InsertAllWindow(buffer: seq<LogEvent>, batch: seq<Option<LogEvent>>, max: int)
    ensures InsertAll(buffer, batch, max) == BatchEffect(buffer, Present(batch), max)
    decreases |batch|
  {
    if batch == [] {
      assert buffer + Present(batch) == buffer;
    } else {
      var rest := batch[1..];
      match batch[0]
      case None =>
        assert Present(batch) == Present(rest);
        InsertAllWindow(buffer, rest, max);
      case Some(e) =>
        assert Present(batch) == [e] + Present(rest);
        if buffer != [] || max >= 1 {
          var b := Window(buffer + [e], Max(|buffer|, max));
          assert InsertAll(buffer, batch, max) == InsertAll(b, rest, max);
          InsertAllWindow(b, rest, max);
          InsertThenWindow(buffer, e, Present(rest), max);
        }
    }
  }

  /** One insertion followed by the rest of a batch has the effect of the whole batch. */
  lemma InsertThenWindow(buffer: seq<LogEvent>, e: LogEvent, t: seq<LogEvent>, max: int)
    requires buffer != [] || max >= 1
    ensures BatchEffect(Window(buffer + [e], Max(|buffer|, max)), t, max) == BatchEffect(buffer, [e] + t, max)
  {
    var m := Max(|buffer|, max);
    var b := Window(buffer + [e], m);
    assert b != [] && Max(|b|, max) == m;
    WindowAppend(buffer + [e], t, m);
    assert buffer + [e] + t == buffer + ([e] + t);
  }

  /**
   * The capacity bound: when `max` is positive and the collection holds at
   * most `max` events, a batch never throws and leaves at most `max` events.
   */
  lemma BatchKeepsCapacity(buffer: seq<LogEvent>, batch: seq<Option<LogEvent>>, max: int)
    requires max >= 1 && |buffer| <= max
    ensures InsertAll(buffer, batch, max).Success?
    ensures |InsertAll(buffer, batch, max).value| <= max
  {
    InsertAllWindow(buffer, batch, max);
  }

  /**
   * A batch into an empty collection with room for all of it leaves exactly
   * the batch's non-null events, in order, whatever their levels.
   */
  lemma BatchIntoEmptyCollection(batch: seq<Option<LogEvent>>, max: int)
    requires |Present(batch)| <= max
    ensures InsertAll([], batch, max) == Success(Present(batch))
  {
    InsertAllWindow([], batch, max);
    assert [] + Present(batch) == Present(batch);
  }

  /** An accepted event ends up last, and the collection grows by at most one. */
  lemma EmitAppendsAccepted(buffer: seq<LogEvent>, e: LogEvent, minimumLevel: LogEventLevel,
                            enableBatching: bool, max: int)
    requires Accepts(Some(e), minimumLevel, enableBatching)
    requires buffer != [] || max >= 1
    ensures EmitResult(buffer, Some(e), minimumLevel, enableBatching, max).Success?
    ensures var b := EmitResult(buffer, Some(e), minimumLevel, enableBatching, max).value;
            |b| >= 1 && b[|b| - 1] == e && |b| <= Max(|buffer|, max) && |b| >= |buffer|
  {
  }

  /** Emit accepts a non-null event when batching is off if and only if its level is not below the minimum. */
  lemma AcceptsAtOrAboveMinimum(e: LogEvent, minimumLevel: LogEventLevel)
    ensures Accepts(Some(e), minimumLevel, false) <==> e.level.Value() >= minimumLevel.Value()
  {
  }

  /** With the default minimum level, Verbose, Emit accepts every non-null event when batching is off. */
  lemma VerboseAcceptsEveryEvent(e: LogEvent)
    ensures Accepts(Some(e), Verbose, false)
  {
  }
}
