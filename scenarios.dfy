/**
 * The unit tests' traces, replayed against the sink's and the options'
 * contracts: each method builds what its test builds and states what its test
 * asserts.
 */
module Scenarios {
  import opened Wrappers
  import opened Events
  import opened SinkOptions
  import opened SinkSpec
  import opened Sink

  /** The arrangement every test shares: a fresh empty collection and a dispatcher that runs work at once. */
  method NewSink(options: ObservableCollectionSinkOptions) returns (sink: ObservableCollectionSink)
    ensures fresh(sink.logEvents) && sink.logEvents.items == [] && sink.options == options
  {
    var logEvents := new LogEventCollection([]);
    var r := Create(logEvents, Some(Dispatcher(0)), options);
    sink := r.value;
  }

  /** With MaxStoredEvents = 1, emitting e1 then e2 leaves only e2. */
  method CapacityOneKeepsNewest(e1: LogEvent, e2: LogEvent) returns (events: seq<LogEvent>)
    ensures events == [e2]
  {
    var options := new ObservableCollectionSinkOptions();
    options.SetMaxStoredEvents(1);
    var sink := NewSink(options);
    var _ := sink.Emit(Some(e1));
    var _ := sink.Emit(Some(e2));
    events := sink.logEvents.items;
  }

  /** Emitting null adds nothing. */
  method NullEventIgnored() returns (events: seq<LogEvent>)
    ensures events == []
  {
    var options := new ObservableCollectionSinkOptions();
    var sink := NewSink(options);
    var _ := sink.Emit(None);
    events := sink.logEvents.items;
  }

  /**
   * With MinimumLevel = Warning, an Information event is dropped while a
   * Warning or an Error event is stored.
   */
  method MinimumLevelWarning(id: nat) returns (below: seq<LogEvent>, equal: seq<LogEvent>, above: seq<LogEvent>)
    ensures below == []
    ensures equal == [LogEvent(id, Warning)]
    ensures above == [LogEvent(id, Error)]
  {
    var options := new ObservableCollectionSinkOptions();
    options.SetMinimumLevel(Warning);
    var sink := NewSink(options);
    var _ := sink.Emit(Some(LogEvent(id, Information)));
    below := sink.logEvents.items;
    sink := NewSink(options);
    var _ := sink.Emit(Some(LogEvent(id, Warning)));
    equal := sink.logEvents.items;
    sink := NewSink(options);
    var _ := sink.Emit(Some(LogEvent(id, Error)));
    above := sink.logEvents.items;
  }

  /**
   * With batching enabled, Emit stores nothing and a batch of the same event
   * twice stores it twice.
   */
  method BatchingEnabled(e: LogEvent) returns (afterEmit: seq<LogEvent>, afterBatch: seq<LogEvent>)
    ensures afterEmit == []
    ensures afterBatch == [e, e]
  {
    var options := new ObservableCollectionSinkOptions();
    options.SetEnableBatching(true);
    var sink := NewSink(options);
    var _ := sink.Emit(Some(e));
    afterEmit := sink.logEvents.items;
    var batch := [Some(e), None, Some(e)];
    assert Present(batch[2..]) == [e];
    assert Present(batch) == [e, e];
    BatchIntoEmptyCollection(batch, options.maxStoredEvents as int);
    var _ := sink.EmitBatch(batch);
    afterBatch := sink.logEvents.items;
  }

  /** Dispose empties the collection, a second Dispose changes nothing, and the sink still stores events afterwards. */
  method DisposeClearsAndStaysUsable(e1: LogEvent, e2: LogEvent)
    returns (afterDispose: seq<LogEvent>, afterSecondDispose: seq<LogEvent>, afterReuse: seq<LogEvent>)
    ensures afterDispose == [] && afterSecondDispose == []
    ensures afterReuse == [e2]
  {
    var options := new ObservableCollectionSinkOptions();
    var sink := NewSink(options);
    var _ := sink.Emit(Some(e1));
    sink.Dispose();
    afterDispose := sink.logEvents.items;
    sink.Dispose();
    afterSecondDispose := sink.logEvents.items;
    var _ := sink.Emit(Some(e2));
    afterReuse := sink.logEvents.items;
  }

  /** Each null constructor argument raises ArgumentNullException on its own. */
  method NullArguments() returns (noCollection: Result<ObservableCollectionSink, Exception>,
                                  noDispatcher: Result<ObservableCollectionSink, Exception>,
                                  noOptions: Result<ObservableCollectionSink, Exception>)
    ensures noCollection == Failure(ArgumentNullException("logEvents"))
    ensures noDispatcher == Failure(ArgumentNullException("dispatcher"))
    ensures noOptions == Failure(ArgumentNullException("options"))
  {
    var options := new ObservableCollectionSinkOptions();
    var logEvents := new LogEventCollection([]);
    noCollection := Create(null, Some(Dispatcher(0)), options);
    noDispatcher := Create(logEvents, None, options);
    noOptions := Create(logEvents, Some(Dispatcher(0)), null);
  }

  /** MaxStoredEvents = 0 on an empty collection: Emit throws from RemoveAt(0) and nothing is stored. */
  method ZeroCapacityThrows(e: LogEvent) returns (outcome: Outcome<Exception>, events: seq<LogEvent>)
    ensures outcome == Fail(ArgumentOutOfRangeException("index"))
    ensures events == []
  {
    var options := new ObservableCollectionSinkOptions();
    options.SetMaxStoredEvents(0);
    var sink := NewSink(options);
    outcome := sink.Emit(Some(e));
    events := sink.logEvents.items;
  }

  /** The idle handler does nothing by default, and invokes a configured callback once. */
  method IdleCallback(c: Callback) returns (byDefault: seq<Callback>, configured: seq<Callback>)
    ensures byDefault == []
    ensures configured == [c]
  {
    var options := new ObservableCollectionSinkOptions();
    var sink := NewSink(options);
    byDefault := sink.OnEmptyBatch();
    options.SetOnEmptyBatchAction(Some(c));
    configured := sink.OnEmptyBatch();
  }

  /** A default-configured sink stores any event emitted to it, whatever its level. */
  method DefaultsAcceptEveryLevel(e: LogEvent) returns (events: seq<LogEvent>)
    ensures events == [e]
  {
    var options := new ObservableCollectionSinkOptions();
    var sink := NewSink(options);
    var _ := sink.Emit(Some(e));
    events := sink.logEvents.items;
  }

  /** Writing the five settings stores exactly what was written. */
  method OptionsAcceptNewValues() returns (max: Int32, level: LogEventLevel, batching: bool, limit: Int32, period: TimeSpan)
    ensures max == 500 && level == Warning && batching && limit == 100 && period == TimeSpan(TicksPerSecond)
  {
    var options := new ObservableCollectionSinkOptions();
    options.SetMaxStoredEvents(500);
    options.SetMinimumLevel(Warning);
    options.SetEnableBatching(true);
    options.SetBatchSizeLimit(100);
    options.SetPeriod(TimeSpan(TicksPerSecond));
    max, level, batching, limit, period :=
      options.maxStoredEvents, options.minimumLevel, options.enableBatching, options.batchSizeLimit, options.period;
  }
}
