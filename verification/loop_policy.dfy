/** Loop transitions decided purely from the tree (loop_policy.py). */
module LoopPolicy {
  import opened StateModels

  datatype LoopDecision =
    | AdvanceBodyStep(index: nat)
    | CompleteIteration
    | TerminateLoopPassed
    | RepeatNextIteration(number: nat)
    | TerminateLoopCeiling
    | PromptCeiling

  /** Position of the first leaf, among those paired with a body definition, that is not terminal;
      n when there is none. */
  function FirstLiveLeaf(leaves: seq<Leaf>, n: nat): (r: nat)
    requires n <= |leaves|
    ensures r <= n
    ensures forall i :: 0 <= i < r ==> Terminal(leaves[i].state)
    ensures r < n ==> !Terminal(leaves[r].state)
  {
    if n == 0 || !Terminal(leaves[0].state) then 0 else 1 + FirstLiveLeaf(leaves[1..], n - 1)
  }

  function Min(a: nat, b: nat): nat { if a < b then a else b }

  /** evaluate_iteration over the last iteration of a loop node. */
  function Decide(loop: Node, body: seq<StepDef>): LoopDecision
    requires loop.LoopNode? && loop.iterations != []
  {
    var iteration := Last(loop.iterations);
    var n := Min(|body|, |iteration.steps|);
    var index := FirstLiveLeaf(iteration.steps, n);
    if index < n then AdvanceBodyStep(index)
    else if iteration.untilPassed.None? then CompleteIteration
    else if iteration.untilPassed.value then TerminateLoopPassed
    else if iteration.number < IterationCeiling(loop) then RepeatNextIteration(iteration.number + 1)
    else HandleCeiling(loop.onMaxIterations)
  }

  function HandleCeiling(policy: FailurePolicy): LoopDecision {
    if policy.Abort? || policy.Continue? then TerminateLoopCeiling else PromptCeiling
  }

  /** evaluate_conditions followed by all(...): holds interprets one until expression. */
  predicate UntilHolds(holds: (string, nat, map<string, StepResult>) -> bool,
                       until: seq<string>, number: nat, results: map<string, StepResult>)
  {
    forall i :: 0 <= i < |until| ==> holds(until[i], number, results)
  }
}
