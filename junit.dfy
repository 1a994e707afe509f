/**
 * The JUnit values that cross the bridge, kept abstract. The only field any
 * modelled code reads is the display name of a description.
 */
module JUnit {
  import opened Wrappers

  /** org.junit.runner.Description: the identity of a test or a suite. */
  datatype Description = Description(className: string, methodName: Option<string>, displayName: string)

  /** org.junit.runner.Result: the summary of a finished run. */
  datatype RunResult = RunResult(runCount: nat, failureCount: nat, ignoreCount: nat, runTime: nat)

  /** org.junit.runner.notification.Failure: a failing test and what it threw. */
  datatype Failure = Failure(description: Description, message: Option<string>)
}
