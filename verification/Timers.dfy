/** What hosts agree on about wake-up times. */
module Timers {
  /** Wake times at or beyond this one are not scheduled. */
  const HORIZON: int := 999999
}
