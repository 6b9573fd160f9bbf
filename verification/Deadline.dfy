/** The deadline of a suspend: how long the set stays Suspending before it reports Failed. */
module SuspendDeadline {
  import opened World
  import H = Hibernations

  const TIMEOUT: int := 180 * H.SECOND

  /** An entry into Suspending, and a deadline nobody can read, start the clock afresh. */
  predicate Restarts(phase: Phase, since: Option<int>) {
    phase != Suspending || since.None?
  }

  predicate Exceeded(since: int, now: int) {
    now - since > TIMEOUT
  }

  /** A readable deadline is the time at which it was written, to the whole second. */
  ghost predicate Clocked(cs: CocoonSet, now: int) {
    cs.since.Some? ==> cs.since.value == H.Truncated(cs.asked) && cs.asked <= now
  }

  /** A deadline that has passed was written the whole timeout ago, to the second; one written longer
      ago than that has passed. */
  lemma ExceededIsElapsed(cs: CocoonSet, now: int)
    requires Clocked(cs, now) && cs.since.Some?
    ensures Exceeded(cs.since.value, now) ==> now - cs.asked > TIMEOUT - H.SECOND
    ensures now - cs.asked > TIMEOUT ==> Exceeded(cs.since.value, now)
  {}
}
