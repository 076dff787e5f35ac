/** StepExecution: how one call of run_attempt dispatches a step and turns the last outcome into a result
    (executors/step_executor.py). Running a primitive is an oracle; a dispatch is its outcome after assertions. */
module StepExecution {
  import opened StateModels
  import opened FailureRules

  datatype Dispatch = Dispatch(completed: bool, exitCode: int, output: string, attempts: nat, diagnostic: Diagnostic)

  /** _failed_dispatch, whose attempts default to 1. */
  function FailedDispatch(text: string): Dispatch {
    Dispatch(false, 1, "", 1, Reported(text))
  }

  /** _prepare: only action retry gives more than one attempt. */
  function MaxAttempts(spec: OnFailure): (r: nat)
    ensures r >= 1
  {
    if spec.action.Retry? then spec.maxRetries else 1
  }

  /** _run_attempts: dispatch until one completes or the budget is used up; dispatched counts the dispatches. */
  method RunAttempts(initial: nat, budget: nat, dispatch: nat -> Dispatch) returns (outcome: Dispatch, dispatched: nat)
    ensures dispatched <= budget && (dispatched == 0 <==> budget == 0)
    ensures dispatched == 0 ==> outcome == FailedDispatch("Step did not run.")
    ensures dispatched > 0 ==> outcome == dispatch(initial + dispatched - 1).(attempts := initial + dispatched - 1)
    ensures forall a :: initial <= a < initial + dispatched - 1 ==> !dispatch(a).completed
    ensures !outcome.completed ==> dispatched == budget
  {
    outcome := FailedDispatch("Step did not run.");
    dispatched := 0;
    while dispatched < budget
      invariant dispatched <= budget
      invariant forall a :: initial <= a < initial + dispatched ==> !dispatch(a).completed
      invariant dispatched == 0 ==> outcome == FailedDispatch("Step did not run.")
      invariant dispatched > 0 ==> outcome == dispatch(initial + dispatched - 1).(attempts := initial + dispatched - 1)
    {
      var attempt := initial + dispatched;
      outcome := dispatch(attempt).(attempts := attempt);
      dispatched := dispatched + 1;
      if outcome.completed {
        return;
      }
    }
  }

  /** The result run() returns for the last outcome: completed, or the escalation of _finalize_failure. */
  function Finalize(step: StepDef, d: Dispatch): StepResult {
    if d.completed then StepResult(step.id, ResultCompleted, 0, d.output, d.attempts, d.diagnostic)
    else if EffectivePolicy(step.onFailure).Continue? then
      StepResult(step.id, ResultIgnored, 0, d.output, d.attempts, d.diagnostic)
    else StepResult(step.id, ResultFailed, d.exitCode, d.output, d.attempts, d.diagnostic)
  }

  /** The dispatches a step has when it is run once: its retries when its action is retry, and one otherwise. */
  predicate Within(spec: OnFailure, n: nat) {
    if spec.action.Retry? then n <= spec.maxRetries else n <= 1
  }

  /** A result a step that is ready can return when run with this number: at least this number, and ignored instead of
      failed exactly when its failure lets the run go on. */
  predicate Returnable(step: StepDef, initial: nat, r: StepResult) {
    && initial <= r.attempts && Within(step.onFailure, r.attempts - initial + 1)
    && (!r.status.ResultCompleted? ==> (r.status.ResultIgnored? <==> GoesOn(step.onFailure)))
  }

  /** run: ready is whether the worktree exists and the step resolves. A ready step is dispatched until one dispatch
      completes or its budget is used up, and returns what the last one gave, ignored instead of failed exactly when
      the action, or after retries its escalation, is continue. A step that is not ready fails with attempts 1,
      whatever number it was asked to start at. */
  method Run(step: StepDef, ready: bool, initial: nat, dispatch: nat -> Dispatch)
    returns (r: StepResult, dispatched: nat)
    ensures !ready ==> dispatched == 0 && r.status.ResultFailed? && r.exitCode == 1 && r.output == "" && r.attempts == 1
    ensures r.attempts < initial <==> !ready && initial > 1
    ensures ready ==> Returnable(step, initial, r) && 0 < dispatched && Within(step.onFailure, dispatched)
    ensures forall a :: initial <= a < initial + dispatched - 1 ==> !dispatch(a).completed
    ensures r.stepId == step.id
    ensures ready ==>
              var spec, last := step.onFailure, dispatch(initial + dispatched - 1);
              && r.attempts == initial + dispatched - 1 && r.output == last.output && r.diagnostic == last.diagnostic
              && (r.status.ResultCompleted? <==> last.completed)
              && (!last.completed ==> dispatched == if spec.action.Retry? then spec.maxRetries else 1)
              && (r.status.ResultIgnored? <==>
                    !last.completed
                    && (spec.action.Continue? || (spec.action.Retry? && spec.onMaxRetries.Continue?)))
              && r.exitCode == if r.status.ResultFailed? then last.exitCode else 0
  {
    if !ready {
      r := StepResult(step.id, ResultFailed, 1, "", 1, Reported("Could not resolve step."));
      return r, 0;
    }
    var outcome, n := RunAttempts(initial, MaxAttempts(step.onFailure), dispatch);
    r := Finalize(step, outcome);
    dispatched := n;
  }
}
