/** The failure oracle shared by both services. */
module Database {

  /** How one database statement ends. A failure may come before the effect, or after the effect
      but before the client sees it. */
  datatype DbOutcome = Done | FailedBefore | FailedAfter
}
