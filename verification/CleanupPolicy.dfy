/** How long a failing clean-up may hold a deletion up; both controllers use it. */
module CleanupPolicy {

  const BLOCK := "Block"

  datatype Policy = Policy(onFailure: string, gracePeriod: int)

  /** Whether to go on without: never under Block, and not before the grace period is over. Every other
      setting, including none, counts as consent. */
  predicate ShouldAbandon(p: Policy, elapsed: int) {
    p.onFailure != BLOCK && elapsed >= p.gracePeriod
  }
}
