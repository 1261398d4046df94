/** The request and document shapes of the process-monitoring service. */
module Processes {

  /** `DateTime.MaxValue.Ticks`: 100-nanosecond ticks from 0001-01-01 to the end of 9999-12-31. */
  const MAX_TICKS := 3155378975999999999

  /** `TimeSpan.MaxValue.Ticks`, the largest value a 64-bit signed tick count holds. */
  const TIME_SPAN_MAX_TICKS := 0x7FFF_FFFF_FFFF_FFFF

  /** A `DateTime`, as its tick count. */
  type Ticks = t: int | 0 <= t <= MAX_TICKS

  /** `default(DateTime)`, the value of a timestamp nobody has set. */
  const DEFAULT_TIMESTAMP: Ticks := 0

  /** The five descriptive properties a caller sends to start or stop a process. */
  datatype ProcessRequest = ProcessRequest(prop1: string, prop2: string, prop3: string, prop4: string, prop5: string)

  /** The document stored in the index; `duration` is a `TimeSpan` as a signed tick count. */
  datatype ProcessDocument = ProcessDocument(
    id: string,
    prop1: string, prop2: string, prop3: string, prop4: string, prop5: string,
    startTimestamp: Ticks,
    stopTimestamp: Ticks,
    duration: int,
    isComplete: bool)
  {
    /** The five properties the document carries, as a request. */
    function Props(): ProcessRequest
    {
      ProcessRequest(prop1, prop2, prop3, prop4, prop5)
    }
  }
}
