/**
 * ObservableCollectionSink: a Serilog sink that appends log events to a
 * caller-owned collection, evicting the oldest once the collection holds
 * MaxStoredEvents events.
 */
module Sink {
  import opened Wrappers
  import opened Events
  import opened SinkOptions
  import opened SinkSpec

  /**
   * The caller-owned ObservableCollection<LogEvent>. The caller keeps a
   * reference to it and reads it; the sink changes it in place.
   */
  class LogEventCollection {
    var items: seq<LogEvent>

    constructor (initial: seq<LogEvent>)
      ensures items == initial
    {
      items := initial;
    }
  }

  /**
   * The caller's `Action<Action>` dispatcher. Every dispatcher is modelled as
   * running the work it is handed at once, on the calling thread.
   */
  datatype Dispatcher = Dispatcher(id: nat)

  /**
   * The sink's constructor: each argument that is null raises
   * ArgumentNullException naming it, checked in the order logEvents,
   * dispatcher, options. The collection is taken as it is, not cleared.
   */
  method Create(logEvents: LogEventCollection?, dispatcher: Option<Dispatcher>, options: ObservableCollectionSinkOptions?)
    returns (r: Result<ObservableCollectionSink, Exception>)
    ensures logEvents == null ==> r == Failure(ArgumentNullException("logEvents"))
    ensures logEvents != null && dispatcher.None? ==> r == Failure(ArgumentNullException("dispatcher"))
    ensures logEvents != null && dispatcher.Some? && options == null ==> r == Failure(ArgumentNullException("options"))
    ensures r.Success? <==> logEvents != null && dispatcher.Some? && options != null
    ensures r.Success? ==> fresh(r.value) && r.value.logEvents == logEvents &&
                           Some(r.value.dispatcher) == dispatcher && r.value.options == options
  {
    if logEvents == null {
      return Failure(ArgumentNullException("logEvents"));
    }
    if dispatcher.None? {
      return Failure(ArgumentNullException("dispatcher"));
    }
    if options == null {
      return Failure(ArgumentNullException("options"));
    }
    var sink := new ObservableCollectionSink(logEvents, dispatcher.value, options);
    r := Success(sink);
  }

  class ObservableCollectionSink {
    const logEvents: LogEventCollection
    const dispatcher: Dispatcher
    const options: ObservableCollectionSinkOptions

    /**
     * The capacity bound: a positive MaxStoredEvents that the collection does
     * not exceed. The sink keeps it once it holds; it does not establish it,
     * since the caller may hand over a longer collection or change the options.
     */
    ghost function WithinCapacity(): (ok: bool)
      reads logEvents, options
      ensures ok && |logEvents.items| >= options.maxStoredEvents as int ==> logEvents.items != []
    {
      options.maxStoredEvents >= 1 && |logEvents.items| <= options.maxStoredEvents as int
    }

    /** The body of the constructor once every argument is known to be non-null. */
    constructor (logEvents: LogEventCollection, dispatcher: Dispatcher, options: ObservableCollectionSinkOptions)
      ensures this.logEvents == logEvents && this.dispatcher == dispatcher && this.options == options
    {
      this.logEvents := logEvents;
      this.dispatcher := dispatcher;
      this.options := options;
    }

    /**
     * Emit: drops a null event, an event below MinimumLevel, and every event
     * while batching is enabled; otherwise hands the event to ProcessLogEvent.
     */
    method Emit(logEvent: Option<LogEvent>) returns (outcome: Outcome<Exception>)
      modifies logEvents
      ensures match EmitResult(old(logEvents.items), logEvent, options.minimumLevel, options.enableBatching,
                               options.maxStoredEvents as int)
              case Success(b) => outcome.Pass? && logEvents.items == b
              case Failure(x) => outcome == Fail(x) && logEvents.items == old(logEvents.items)
      ensures old(WithinCapacity()) ==> WithinCapacity()
    {
      if logEvent.None? || logEvent.value.level.Below(options.minimumLevel) || options.enableBatching {
        return Pass;
      }
      outcome := ProcessLogEvent(logEvent);
    }

    /**
     * EmitBatchAsync: hands every element of the batch, in order, to
     * ProcessLogEvent, with no level or batching check. An exception ends the
     * loop and propagates to the caller.
     */
    method EmitBatch(batch: seq<Option<LogEvent>>) returns (outcome: Outcome<Exception>)
      modifies logEvents
      ensures match InsertAll(old(logEvents.items), batch, options.maxStoredEvents as int)
              case Success(b) => outcome.Pass? && logEvents.items == b
              case Failure(x) => outcome == Fail(x) && logEvents.items == old(logEvents.items)
      ensures old(WithinCapacity()) ==> WithinCapacity()
    {
      var max := options.maxStoredEvents as int;
      var i := 0;
      while i < |batch|
        invariant 0 <= i <= |batch|
        invariant InsertAll(logEvents.items, batch[i..], max) == InsertAll(old(logEvents.items), batch, max)
      {
        assert batch[i..][1..] == batch[i + 1..];
        var o := ProcessLogEvent(batch[i]);
        if o.Fail? {
          InsertAllWindow(old(logEvents.items), batch, max);
          return o;
        }
        i := i + 1;
      }
      outcome := Pass;
      InsertAllWindow(old(logEvents.items), batch, max);
    }

    /** OnEmptyBatchAsync: invokes OnEmptyBatchAction when it is set; returns the callbacks it invoked. */
    method OnEmptyBatch() returns (invoked: seq<Callback>)
      ensures options.onEmptyBatchAction.None? ==> invoked == []
      ensures options.onEmptyBatchAction.Some? ==> invoked == [options.onEmptyBatchAction.value]
    {
      invoked := [];
      if options.onEmptyBatchAction.Some? {
        invoked := invoked + [options.onEmptyBatchAction.value];
      }
    }

    /**
     * ProcessLogEvent: skips a null event; otherwise, through the dispatcher,
     * removes index 0 when the collection already holds MaxStoredEvents or
     * more events, then appends the event.
     */
    method ProcessLogEvent(logEvent: Option<LogEvent>) returns (outcome: Outcome<Exception>)
      modifies logEvents
      ensures logEvent.None? ==> outcome.Pass? && logEvents.items == old(logEvents.items)
      ensures logEvent.Some? ==>
                match Insert(old(logEvents.items), logEvent.value, options.maxStoredEvents as int)
                case Success(b) => outcome.Pass? && logEvents.items == b
                case Failure(x) => outcome == Fail(x) && logEvents.items == old(logEvents.items)
    {
      if logEvent.None? {
        return Pass;
      }
      // The work unit handed to the dispatcher, which runs it immediately.
      if |logEvents.items| >= options.maxStoredEvents as int {
        if logEvents.items == [] {
          return Fail(ArgumentOutOfRangeException("index"));
        }
        logEvents.items := logEvents.items[1..];
      }
      logEvents.items := logEvents.items + [logEvent.value];
      outcome := Pass;
    }

    /** Dispose: clears the collection, which stays usable. */
    method Dispose()
      modifies logEvents
      ensures logEvents.items == []
    {
      DisposeCore(true);
    }

    /** Dispose(bool): clears the collection whatever `disposing` is. */
    method DisposeCore(disposing: bool)
      modifies logEvents
      ensures logEvents.items == []
    {
      logEvents.items := [];
    }
  }
}
