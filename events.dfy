/** The part of Serilog's event model that the sink reads. */
module Events {

  /** Serilog's LogEventLevel, an enum whose members are numbered 0 to 5 in this order. */
  datatype LogEventLevel = Verbose | Debug | Information | Warning | Error | Fatal
  {
    /** The enum's underlying number, which C#'s `<` on levels compares. */
    function Value(): (n: nat)
      ensures n <= 5
      ensures n == 0 <==> this == Verbose
    {
      match this
      case Verbose => 0
      case Debug => 1
      case Information => 2
      case Warning => 3
      case Error => 4
      case Fatal => 5
    }

    /** `this < other` on the enum: nothing is below Verbose and Fatal is below nothing. */
    function Below(other: LogEventLevel): (b: bool)
      ensures b ==> this != other && other != Verbose && this != Fatal
    {
      Value() < other.Value()
    }
  }

  /**
   * A log event. The sink only ever reads `level`; `id` stands for everything
   * else the event carries (timestamp, message template, properties), which the
   * sink passes through untouched.
   */
  datatype LogEvent = LogEvent(id: nat, level: LogEventLevel)
}
