# ObservableCollectionSink, modelled in Dafny

This project models the core of `Serilog.Sinks.ObservableCollection`. That core is a Serilog sink that appends
log events to a caller-owned `ObservableCollection<LogEvent>`, so that a UI can show them as they arrive.
The sink has four parts:

- **Emit**: the single-event path. It drops null events, events below `MinimumLevel`, and every event while
  `EnableBatching` is on.
- **EmitBatchAsync**: the batch path. It skips null events and nothing else.
- **ProcessLogEvent**: the mutation both paths share. Through the dispatcher, it removes the oldest event
  once the collection holds `MaxStoredEvents` or more, then appends.
- **OnEmptyBatchAsync** and **Dispose**: the idle callback, and the call that clears the collection.

The settings live in `ObservableCollectionSinkOptions`. It is a mutable options class with defaults
(1000 events, `Verbose`, batching off, 50 events per batch, 2 seconds, no idle callback).

Layout:

- `wrappers.dfy`, module `Wrappers`: `Option` (for null), `Result` and `Outcome` (for a thrown exception).
- `events.dfy`, module `Events`: `LogEventLevel`, Serilog's six ordered levels, and `LogEvent`. An event
  is its level plus an opaque id standing for everything else it carries.
- `sink_options.dfy`, module `SinkOptions`: the options class, one field per property and one setter per
  property. `Period` is a `TimeSpan` counted in 100-nanosecond ticks.
- `sink_spec.dfy`, module `SinkSpec`: the buffer policy as functions on sequences. `Insert` is the
  dispatched evict-then-append unit. `EmitResult` is `Emit`. `InsertAll` is the batch loop. `Window(s, n)`
  is the reference definition of "the newest `n` events of `s`, in order", and the lemmas relate the
  policy to it.
- `sink.dfy`, module `Sink`: the caller-owned collection as a class whose `items` the sink changes in
  place. The sink is a class whose methods are proved against the `SinkSpec` functions. `Create` is the
  constructor with its null checks.
- `scenarios.dfy`, module `Scenarios`: the unit tests' traces, replayed through the classes' contracts.

The main result is `SinkSpec.InsertAllWindow`. A batch throws exactly when three things hold together:
the collection is empty, `MaxStoredEvents <= 0`, and the batch has a non-null event. Otherwise the
collection ends as the newest `Max(|old|, MaxStoredEvents)` events of the old contents followed by the
batch's non-null events. This closed form gives the capacity bound, oldest-first eviction and order
preservation at once.

Notes on what the code does and does not guarantee:

- The code keeps `Count <= MaxStoredEvents` only once it holds. It does not establish it. The collection
  belongs to the caller and may arrive longer than the bound. The options are held by reference and may
  change after construction. With such a collection, every insert evicts one event and adds one, so the
  length stays where it is (`InsertAllWindow` covers this case). `WithinCapacity` is therefore an
  invariant that `Emit` and `EmitBatch` preserve, not one the constructor sets up.
- `MaxStoredEvents` is never validated. When it is `<= 0` and the collection is empty,
  `RemoveAt(0)` throws `ArgumentOutOfRangeException`. The model returns that failure; it does not exclude
  the case with a precondition. If the collection is not empty, such a bound just keeps its length fixed.
- The options are a mutable class, not a value fixed at construction. The sink reads them on every call.
- The batch path applies no level filter and no batching check, whatever mode the options select. Only
  the registration glue (not modelled) keeps events below the minimum away from the batch path.

## Model

| member | source | states |
|---|---|---|
| `Sink.Create` | Serilog.Sinks.ObservableCollection/ObservableCollectionSink.cs:30-35 | A null collection, dispatcher or options each raises ArgumentNullException naming that argument, checked in that order. Otherwise the result is a fresh sink holding exactly those three references. |
| `Sink.ObservableCollectionSink.constructor` | Serilog.Sinks.ObservableCollection/ObservableCollectionSink.cs:30-35 | Stores the three references as they are. The collection is not cleared. |
| `Sink.ObservableCollectionSink.Emit` | Serilog.Sinks.ObservableCollection/ObservableCollectionSink.cs:41-50 | The new collection is `EmitResult` of the old one under the current options, or the collection is unchanged when Emit throws. Keeps the capacity bound once it holds. |
| `Sink.ObservableCollectionSink.EmitBatch` | Serilog.Sinks.ObservableCollection/ObservableCollectionSink.cs:57-64 | The new collection is `InsertAll` of the old one over the batch. When the loop throws, the exception is returned and the collection is unchanged. Keeps the capacity bound once it holds. |
| `Sink.ObservableCollectionSink.OnEmptyBatch` | Serilog.Sinks.ObservableCollection/ObservableCollectionSink.cs:70-74 | Invokes OnEmptyBatchAction exactly once when it is set and nothing otherwise. It has no modifies clause, so it cannot change the collection. |
| `Sink.ObservableCollectionSink.ProcessLogEvent` | Serilog.Sinks.ObservableCollection/ObservableCollectionSink.cs:76-86 | A null event changes nothing. Otherwise the collection becomes `Insert` of the old one, or is unchanged and the ArgumentOutOfRangeException is returned. |
| `Sink.ObservableCollectionSink.Dispose` | Serilog.Sinks.ObservableCollection/ObservableCollectionSink.cs:88-92 | The collection is empty afterwards whatever it held. This is idempotent, and the sink stays usable. |
| `Sink.ObservableCollectionSink.DisposeCore` | Serilog.Sinks.ObservableCollection/ObservableCollectionSink.cs:94-97 | Clears the collection whatever the `disposing` flag is. |
| `Events.LogEventLevel.Value` | Serilog.Sinks.ObservableCollection/ObservableCollectionSink.cs:44 | Levels compare by their enum numbers 0 to 5, and only Verbose is 0, the lowest. |
| `SinkSpec.Present` | Serilog.Sinks.ObservableCollection/ObservableCollectionSink.cs:59-62 | The events the batch loop inserts: no more than the batch holds, and an event is among them exactly when the batch contains it non-null. |
| `SinkSpec.Insert` | Serilog.Sinks.ObservableCollection/ObservableCollectionSink.cs:81-84 | Throws exactly when the collection is empty and MaxStoredEvents <= 0. Otherwise the result is the newest Max(count, MaxStoredEvents) events of the old contents plus the new one: at most the oldest is dropped, the rest keep their order, and the new event is last. |
| `SinkSpec.EmitResult` | Serilog.Sinks.ObservableCollection/ObservableCollectionSink.cs:44-49 | Emit's guard is the predicate `Accepts`. A null event, a level below the minimum, or batching left on leaves the collection unchanged. An accepted event is inserted by the eviction rule, and Emit throws only for an accepted event on an empty collection with MaxStoredEvents <= 0. |
| `SinkSpec.InsertAllWindow` | Serilog.Sinks.ObservableCollection/ObservableCollectionSink.cs:59-84 | Closed form of a batch. It throws exactly when the collection is empty, MaxStoredEvents <= 0 and some element is non-null. Otherwise the result is the newest Max(count, MaxStoredEvents) events of the old contents followed by the batch's non-null events in order. |
| `SinkSpec.InsertThenWindow` | Serilog.Sinks.ObservableCollection/ObservableCollectionSink.cs:81-84 | One insertion followed by the rest of a batch has the same effect as the whole batch. |
| `SinkSpec.BatchKeepsCapacity` | Serilog.Sinks.ObservableCollection/ObservableCollectionSink.cs:81-84 | With MaxStoredEvents >= 1 and the collection within it, a batch never throws and leaves at most MaxStoredEvents events. |
| `SinkSpec.BatchIntoEmptyCollection` | Serilog.Sinks.ObservableCollection/ObservableCollectionSink.cs:59-62 | On an empty collection with room for the batch, the result is exactly the batch's non-null events in order, whatever their levels. |
| `SinkSpec.EmitAppendsAccepted` | Serilog.Sinks.ObservableCollection/ObservableCollectionSink.cs:41-86 | An accepted event that does not throw ends up last. The collection grows by at most one, never shrinks, and stays within Max(count, MaxStoredEvents). |
| `SinkSpec.AcceptsAtOrAboveMinimum` | Serilog.Sinks.ObservableCollection/ObservableCollectionSink.cs:44 | With batching off, a non-null event passes Emit's filter if and only if its level is equal to or above MinimumLevel. |
| `SinkSpec.VerboseAcceptsEveryEvent` | Serilog.Sinks.ObservableCollection/ObservableCollectionSinkOptions.cs:12 | Under the default minimum level, Verbose, every non-null event passes Emit's filter. |
| `SinkSpec.InsertAll` | Serilog.Sinks.ObservableCollection/ObservableCollectionSink.cs:59-62 | The batch loop: each element goes through `Insert` in order and the first exception ends it. It throws only on an empty collection with MaxStoredEvents <= 0, and a batch that does not throw never leaves fewer events than it found. |
| `Events.LogEventLevel.Below` | Serilog.Sinks.ObservableCollection/ObservableCollectionSink.cs:44 | C#'s `<` on the level enum. It is strict: no level is below itself, nothing is below Verbose, and Fatal is below nothing. |
| `Sink.ObservableCollectionSink.WithinCapacity` | Serilog.Sinks.ObservableCollection/ObservableCollectionSink.cs:81-84 | The capacity bound that Emit and EmitBatch keep: MaxStoredEvents is positive and the collection does not exceed it. Under it, the eviction branch never meets an empty collection, so RemoveAt(0) cannot throw. |
| `Sink.LogEventCollection.constructor` | Serilog.Sinks.ObservableCollection/ObservableCollectionSink.cs:21 | The caller's `ObservableCollection<LogEvent>`, exposed as `LogEvents`. It starts with whatever contents the caller gives it. |
| `SinkOptions.ObservableCollectionSinkOptions.constructor` | Serilog.Sinks.ObservableCollection/ObservableCollectionSinkOptions.cs:10-15 | Defaults: no idle action, 1000 events, Verbose, batching off, batch size 50, period 2 seconds (20,000,000 ticks). |
| `SinkOptions.ObservableCollectionSinkOptions.SetOnEmptyBatchAction` | Serilog.Sinks.ObservableCollection/ObservableCollectionSinkOptions.cs:10 | Stores the value written and may change no other property. |
| `SinkOptions.ObservableCollectionSinkOptions.SetMaxStoredEvents` | Serilog.Sinks.ObservableCollection/ObservableCollectionSinkOptions.cs:11 | Stores any Int32 written, with no validation, and may change no other property. |
| `SinkOptions.ObservableCollectionSinkOptions.SetMinimumLevel` | Serilog.Sinks.ObservableCollection/ObservableCollectionSinkOptions.cs:12 | Stores the value written and may change no other property. |
| `SinkOptions.ObservableCollectionSinkOptions.SetEnableBatching` | Serilog.Sinks.ObservableCollection/ObservableCollectionSinkOptions.cs:13 | Stores the value written and may change no other property. |
| `SinkOptions.ObservableCollectionSinkOptions.SetBatchSizeLimit` | Serilog.Sinks.ObservableCollection/ObservableCollectionSinkOptions.cs:14 | Stores any Int32 written and may change no other property. |
| `SinkOptions.ObservableCollectionSinkOptions.SetPeriod` | Serilog.Sinks.ObservableCollection/ObservableCollectionSinkOptions.cs:15 | Stores the value written and may change no other property. |
| `Scenarios.CapacityOneKeepsNewest` | Serilog.Sinks.ObservableCollection.Tests/ObservableCollectionSinkTests.cs:52-69 | With MaxStoredEvents = 1, emitting E1 then E2 leaves exactly [E2]. |
| `Scenarios.NullEventIgnored` | Serilog.Sinks.ObservableCollection.Tests/ObservableCollectionSinkTests.cs:72-85 | Emitting null leaves the collection empty. |
| `Scenarios.MinimumLevelWarning` | Serilog.Sinks.ObservableCollection.Tests/ObservableCollectionSinkTests.cs:152-214 | With MinimumLevel = Warning, an Information event is dropped, and a Warning or an Error event is stored. |
| `Scenarios.BatchingEnabled` | Serilog.Sinks.ObservableCollection.Tests/ObservableCollectionSinkTests.cs:128-149 | With batching on, Emit stores nothing. A batch holding the same event twice (and a null) stores it twice. |
| `Scenarios.DisposeClearsAndStaysUsable` | Serilog.Sinks.ObservableCollection.Tests/ObservableCollectionSinkTests.cs:88-103 | Dispose empties the collection, a second Dispose leaves it empty, and a later Emit stores again. |
| `Scenarios.NullArguments` | Serilog.Sinks.ObservableCollection.Tests/ObservableCollectionSinkTests.cs:217-247 | Each null constructor argument on its own raises ArgumentNullException naming it. |
| `Scenarios.ZeroCapacityThrows` | Serilog.Sinks.ObservableCollection/ObservableCollectionSink.cs:81-82 | With MaxStoredEvents = 0 and an empty collection, Emit throws ArgumentOutOfRangeException from RemoveAt(0) and stores nothing. |
| `Scenarios.IdleCallback` | Serilog.Sinks.ObservableCollection/ObservableCollectionSink.cs:70-74 | The idle handler invokes nothing by default and invokes a configured callback exactly once. |
| `Scenarios.DefaultsAcceptEveryLevel` | Serilog.Sinks.ObservableCollection.Tests/ObservableCollectionSinkTests.cs:10-29 | A default-configured sink stores any non-null event emitted to it, whatever its level. |
| `Scenarios.OptionsAcceptNewValues` | Serilog.Sinks.ObservableCollection.Tests/ObservableCollectionSinkOptionsTests.cs:22-40 | Writing 500, Warning, true, 100 and one second reads back exactly those values. |

## Left out

- Sink.ObservableCollectionSink.EmitBatch: the batch is a finite, non-null value and is never the sink's own
  collection. A null `IEnumerable` batch makes the source's `foreach` throw NullReferenceException. If the batch
  is the sink's own non-empty `LogEvents`, the first insert changes the collection being enumerated and the next
  step throws InvalidOperationException. The model inserts a snapshot of the whole batch instead. Neither error
  path is modelled.
- `LoggerSinkExtensions.ObservableCollection`, the registration glue, is not modelled. It wraps
  Serilog's `LoggerSinkConfiguration.Sink` and `PeriodicBatchingSink`, which are library code outside this
  model. Its only logic is choosing the batching path and restricting that path to `MinimumLevel`.
- The dispatcher's threading is not modelled. Every dispatcher runs its unit of work at once on the
  calling thread, as every test's `action => action()` does. Cross-thread marshalling, asynchronous
  dispatch and interleaving with a concurrent `Dispose` are outside the model.
- The `Task` values returned by `EmitBatchAsync` and `OnEmptyBatchAsync` are not modelled; both are
  always `Task.CompletedTask`. The Dafny methods return the exception thrown, if any, instead.
- What `OnEmptyBatchAction` does when invoked is not modelled, because it is caller code. The model
  records that it was invoked; any effect the callback has on the collection is outside the model.
- `ObservableCollection`'s change notifications and its reentrancy check are not modelled, and neither
  is UI binding.
- `GC.SuppressFinalize` is not modelled.
- `BatchSizeLimit` and `Period` are stored and defaulted only. The periodic-batching package, which
  is outside this model, gives them their meaning.
- `LogEvent`'s contents other than its level (timestamp, template, properties, rendering) are reduced
  to an opaque id.
- The collection's `Count` is an unbounded integer in the model. A collection of more than
  2^31 - 1 events is not considered.
