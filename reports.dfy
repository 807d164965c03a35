/** Values shared by the aggregator and the Slack listener: the outcome records
    that pytest hands to the plugin, the run phases, and listener identities. */
module Reports {

  datatype Option<+T> = None | Some(value: T)

  /** A listener object, identified by its identity (Python hashes listeners by identity). */
  type ListenerId = nat

  /** The phase of a test run a report belongs to (`call.when`). */
  datatype Phase = Setup | Call | Teardown

  /** The part of a pytest `TestReport` the plugin reads: its outcome string and,
      for a failed report, the crash message `longrepr.reprcrash.message`. */
  datatype Record = Record(outcome: string, crashMessage: string)

  const PASSED: string := "passed"
  const FAILED: string := "failed"
  const SKIPPED: string := "skipped"

  /** What a listener receives from the aggregator: a test function name and its records. */
  type TestData = (string, seq<Record>)
}
