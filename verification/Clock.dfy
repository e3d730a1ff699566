/** Time in milliseconds. */
module Clock {
  const SECOND := 1_000
  const MINUTE := 60 * SECOND
}
