/** Terminal failure policies and the rewriting of continued results (failure.py, step_coordinator.py). */
module FailureRules {
  import opened StateModels

  datatype StepDecision = DecideRetry | DecideContinue | DecideAbort

  datatype LoopAnswer = AnswerGrant | AnswerContinue | AnswerAbort

  datatype StepAction = ActRetry | ActContinue | ActAbort

  /** The policy that applies once step-local retries are exhausted. */
  function EffectivePolicy(spec: OnFailure): FailurePolicy {
    if spec.action.Retry? then spec.onMaxRetries else spec.action
  }

  /** What the step's author asked for, read off the specification itself: that the run goes on after the failure. */
  predicate GoesOn(spec: OnFailure) {
    spec.action.Continue? || (spec.action.Retry? && spec.onMaxRetries.Continue?)
  }

  /** That someone is asked. */
  predicate Asks(spec: OnFailure) {
    spec.action.PromptUser? || (spec.action.Retry? && spec.onMaxRetries.PromptUser?)
  }

  /** That the run fails. */
  predicate Aborts(spec: OnFailure) {
    spec.action.Abort? || (spec.action.Retry? && spec.onMaxRetries.Abort?)
  }

  function MarkContinued(r: StepResult): StepResult {
    r.(status := ResultIgnored, diagnostic := UserContinued(r.diagnostic))
  }

  /** resolve_terminal_action: continue records an ignored result, everything else aborts with the failed one. */
  function ResolveTerminalAction(policy: FailurePolicy, r: StepResult): (StepAction, StepResult) {
    if policy.Continue? then (ActContinue, MarkContinued(r)) else (ActAbort, r)
  }

  /** apply_prompt_decision, with the failed result standing in where the original records none. */
  function ApplyPromptDecision(d: StepDecision, r: StepResult): (StepAction, StepResult) {
    match d
    case DecideRetry => (ActRetry, r)
    case DecideContinue => (ActContinue, MarkContinued(r))
    case DecideAbort => (ActAbort, r)
  }
}
