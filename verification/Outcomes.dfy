/** What one run reports about each target. */
module Outcomes {
  import opened Wrappers
  import opened Errors
  import opened State

  datatype Action = NoAction | GatewayRestart | ContainerRestart

  datatype TargetOutcome = TargetOutcome(
    alias: string,
    classification: Option<Classification>,
    action: Action,
    recovered: bool,
    deferred: bool,
    error: Option<Error>,
    reason: Option<FailureReason>,
    condition: Option<string>)
  {
    predicate IsRecovery() {
      recovered && action != NoAction
    }

    predicate IsFailure() {
      !recovered && !deferred
    }

    predicate IsPassiveHealthy() {
      recovered && action == NoAction && !deferred
    }
  }

  /** The process exit code of a run. */
  function ExitCode(outcomes: seq<TargetOutcome>): int {
    if forall i | 0 <= i < |outcomes| :: outcomes[i].recovered || outcomes[i].deferred then 0 else 1
  }

  /** Every target, more than one, unreachable: the host itself is down. */
  predicate HostDown(outcomes: seq<TargetOutcome>) {
    |outcomes| > 1 && forall i | 0 <= i < |outcomes| :: outcomes[i].classification == Some(HOST_UNREACHABLE)
  }
}
