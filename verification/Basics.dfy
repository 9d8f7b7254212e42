/** Failure-compatible results, instants in microseconds, and the constants every package shares. */
module Basics {

  datatype Option<+T> = None | Some(value: T) {
    function UnwrapOr(default: T): T {
      if Some? then value else default
    }
  }

  datatype Result<+T, +E> = Success(value: T) | Failure(error: E)

  /** Microseconds since the Unix epoch: the precision the service truncates to and PostgreSQL stores. */
  type Time = int

  const SECOND: int := 1_000_000
  const HOUR: int := 3600 * SECOND
  const DAY: int := 24 * HOUR
  const RECOVERY_WINDOW: int := 14 * DAY
  const GRACE_PERIOD: int := 7 * DAY
  const REFRESH_INTERVAL: int := 7 * DAY

  /** The zero `time.Time`, 1 January of year 1: what an unpaid invoice reports as its paid end. */
  const ZERO_TIME: Time := -62135596800 * SECOND

  /** `Time.Unix()`: seconds rounded toward minus infinity. */
  function UnixSeconds(t: Time): int {
    t / SECOND
  }

  function Max(a: Time, b: Time): Time {
    if b > a then b else a
  }

  function Min(a: Time, b: Time): Time {
    if b < a then b else a
  }
}
