/** Time as the auth resolvers read it: epoch milliseconds from the server clock. */
module Clock {
  /** A timestamp in milliseconds since the epoch, as `moment()` and `new Date()` give it. */
  type Millis = int

  const MsPerDay: int := 86_400_000

  /** The calendar day of a timestamp. This stands in for `new Date(t).toLocaleDateString()`,
      read in one fixed time zone without daylight-saving shifts. */
  function Day(t: Millis): int
  {
    t / MsPerDay
  }

  /** The date comparison `new Date(updatedAt).toLocaleDateString() == new Date().toLocaleDateString()`. */
  predicate SameDate(stamp: Millis, now: Millis)
  {
    Day(stamp) == Day(now)
  }

  /** `moment() - moment(updatedAt)`: milliseconds since `stamp`, negative if the clock went back. */
  function Elapsed(stamp: Millis, now: Millis): int
  {
    now - stamp
  }
}
