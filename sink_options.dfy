/** The settings object the sink reads on every call. */
module SinkOptions {
  import opened Wrappers
  import opened Events

  /** C#'s `int`. */
  newtype Int32 = x: int | -0x8000_0000 <= x < 0x8000_0000

  /** C#'s `long`. */
  newtype Int64 = x: int | -0x8000_0000_0000_0000 <= x < 0x8000_0000_0000_0000

  /** A .NET TimeSpan, as its count of 100-nanosecond ticks. */
  datatype TimeSpan = TimeSpan(ticks: Int64)

  const TicksPerSecond: Int64 := 10_000_000

  /** A caller-supplied `Action`; what it does when invoked is outside this model. */
  datatype Callback = Callback(id: nat)

  const DefaultMaxStoredEvents: Int32 := 1000
  const DefaultMinimumLevel: LogEventLevel := Verbose
  const DefaultEnableBatching: bool := false
  const DefaultBatchSizeLimit: Int32 := 50
  /** TimeSpan.FromSeconds(2). */
  const DefaultPeriod: TimeSpan := TimeSpan(2 * TicksPerSecond)

  /**
   * ObservableCollectionSinkOptions: a class of settable auto-properties with
   * initialisers and no validation. The sink holds it by reference, so a value
   * written after the sink is built is seen by the sink's next call.
   */
  class ObservableCollectionSinkOptions {
    var onEmptyBatchAction: Option<Callback>
    var maxStoredEvents: Int32
    var minimumLevel: LogEventLevel
    var enableBatching: bool
    var batchSizeLimit: Int32
    var period: TimeSpan

    constructor ()
      ensures onEmptyBatchAction == None
      ensures maxStoredEvents == 1000
      ensures minimumLevel == Verbose
      ensures !enableBatching
      ensures batchSizeLimit == 50
      ensures period.ticks == 20_000_000
    {
      onEmptyBatchAction := None;
      maxStoredEvents := DefaultMaxStoredEvents;
      minimumLevel := DefaultMinimumLevel;
      enableBatching := DefaultEnableBatching;
      batchSizeLimit := DefaultBatchSizeLimit;
      period := DefaultPeriod;
    }

    // Each setter may change its own field and nothing else (the `modifies`
    // frame names that one field), and any value of the type is accepted.

    method SetOnEmptyBatchAction(value: Option<Callback>)
      modifies this`onEmptyBatchAction
      ensures onEmptyBatchAction == value
    {
      onEmptyBatchAction := value;
    }

    method SetMaxStoredEvents(value: Int32)
      modifies this`maxStoredEvents
      ensures maxStoredEvents == value
    {
      maxStoredEvents := value;
    }

    method SetMinimumLevel(value: LogEventLevel)
      modifies this`minimumLevel
      ensures minimumLevel == value
    {
      minimumLevel := value;
    }

    method SetEnableBatching(value: bool)
      modifies this`enableBatching
      ensures enableBatching == value
    {
      enableBatching := value;
    }

    method SetBatchSizeLimit(value: Int32)
      modifies this`batchSizeLimit
      ensures batchSizeLimit == value
    {
      batchSizeLimit := value;
    }

    method SetPeriod(value: TimeSpan)
      modifies this`period
      ensures period == value
    {
      period := value;
    }
  }
}
