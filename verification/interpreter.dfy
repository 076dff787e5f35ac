/** What a blueprint means: a direct recursive interpreter with no tree search, no commits and no control
    state. Steps run in order, a loop repeats its body until its conditions hold, and a failed step is
    settled by its policy. */
module Interpreter {
  import opened StateModels
  import opened FailureRules
  import opened Projection
  import opened Transitions

  /** The outside world as the interpreter sees it. */
  datatype World = World(replies: seq<Reply>, executed: seq<Execution>)

  datatype End = Onward | StopWith(ending: Ending)

  datatype StepRun = StepRun(leaf: Leaf, end: End, world: World)
  datatype BodyRun = BodyRun(leaves: seq<Leaf>, end: End, world: World)
  datatype LoopRun = LoopRun(node: Node, end: End, world: World)
  datatype PlanRun = PlanRun(nodes: seq<Node>, ending: Ending, world: World)

  /** Run attempt `number` of a step after the finished attempts `earlier`, until the step settles or stops
      the run; history is what earlier steps produced. */
  function RunStep(env: Env, step: StepDef, spot: Spot, earlier: seq<Attempt>, number: nat,
                   history: seq<Outcome>, w: World): StepRun
    decreases |w.replies|, 1
  {
    var open := Leaf(step.id, step.name, Running, earlier + [Attempt(number, None)]);
    var called := w.(executed := w.executed + [Execution(step, spot, number, Numbered(history))]);
    if w.replies == [] then StepRun(open, StopWith(Killed), called)
    else
      var w1 := called.(replies := w.replies[1..]);
      match w.replies[0]
      case Interrupt => StepRun(open.(state := Cancelled), StopWith(Returned(RunCancelled)), w1)
      case Reply(result, _, _) =>
        var finished := earlier + [Attempt(result.attempts, Some(result))];
        match result.status
        case ResultCompleted => StepRun(Leaf(step.id, step.name, Completed, finished), Onward, w1)
        case ResultIgnored => StepRun(Leaf(step.id, step.name, Ignored, finished), Onward, w1)
        case ResultFailed => OnStepFailure(env, step, spot, earlier, result, history, w1)
  }

  function OnStepFailure(env: Env, step: StepDef, spot: Spot, earlier: seq<Attempt>,
                         result: StepResult, history: seq<Outcome>, w: World): StepRun
    decreases |w.replies|, 2
  {
    var finished := earlier + [Attempt(result.attempts, Some(result))];
    var ignored := StepResult(result.stepId, ResultIgnored, result.exitCode, result.output, result.attempts,
                              UserContinued(result.diagnostic));
    var waved := earlier + [Attempt(result.attempts, Some(ignored))];
    var failed := StepRun(Leaf(step.id, step.name, Failed, finished), StopWith(Returned(RunFailed)), w);
    if GoesOn(step.onFailure) then StepRun(Leaf(step.id, step.name, Ignored, waved), Onward, w)
    else if !Asks(step.onFailure) || !env.hasPrompter || env.noTty then failed
    else
      var paused := Leaf(step.id, step.name, Paused, finished);
      if w.replies == [] then StepRun(paused, StopWith(Killed), w)
      else
        var w1 := w.(replies := w.replies[1..]);
        match w.replies[0]
        case Interrupt => StepRun(paused, StopWith(Returned(RunPaused)), w1)
        case Reply(_, answer, _) =>
          match answer
          case DecideRetry => RunStep(env, step, spot, finished, result.attempts + 1, history, w1)
          case DecideContinue => StepRun(Leaf(step.id, step.name, Ignored, waved), Onward, w1)
          case DecideAbort => StepRun(Leaf(step.id, step.name, Failed, finished), StopWith(Returned(RunFailed)), w1)
  }

  /** Run the steps of one iteration in order. */
  function RunBody(env: Env, steps: seq<StepDef>, pos: nat, index: nat, number: nat, history: seq<Outcome>,
                   w: World): BodyRun
    decreases |steps|
  {
    if steps == [] then BodyRun([], Onward, w)
    else
      var first := RunStep(env, steps[0], Spot(Body(pos, index), Some(number)), [], 1, history, w);
      if first.end.StopWith? then BodyRun([first.leaf] + PendingLeaves(steps[1..]), first.end, first.world)
      else
        var rest := RunBody(env, steps[1..], pos, index + 1, number, history + LeafOutcomes(first.leaf), first.world);
        BodyRun([first.leaf] + rest.leaves, rest.end, rest.world)
  }

  function LoopOf(loop: LoopDef, state: NodeState, its: seq<Iteration>, granted: nat): Node {
    LoopNode(loop.id, loop.maxIterations, loop.until, loop.onMaxIterations, state, its, granted)
  }

  function Left(loop: LoopDef, granted: nat, done: nat): nat {
    if loop.maxIterations + granted > done then loop.maxIterations + granted - done else 0
  }

  lemma RunStepShrinks(env: Env, step: StepDef, spot: Spot, earlier: seq<Attempt>, number: nat,
                       history: seq<Outcome>, w: World)
    ensures |RunStep(env, step, spot, earlier, number, history, w).world.replies| <= |w.replies|
    decreases |w.replies|
  {
    if w.replies != [] && w.replies[0].Reply? && w.replies[0].result.status.ResultFailed? {
      var result := w.replies[0].result;
      var rest := w.replies[1..];
      if rest != [] && rest[0].Reply? && rest[0].step.DecideRetry? {
        var called := World(rest[1..], w.executed + [Execution(step, spot, number, Numbered(history))]);
        RunStepShrinks(env, step, spot, earlier + [Attempt(result.attempts, Some(result))], result.attempts + 1,
                       history, called);
      }
    }
  }

  lemma RunBodyShrinks(env: Env, steps: seq<StepDef>, pos: nat, index: nat, number: nat, history: seq<Outcome>,
                       w: World)
    ensures |RunBody(env, steps, pos, index, number, history, w).world.replies| <= |w.replies|
    decreases |steps|
  {
    if steps != [] {
      RunStepShrinks(env, steps[0], Spot(Body(pos, index), Some(number)), [], 1, history, w);
      var first := RunStep(env, steps[0], Spot(Body(pos, index), Some(number)), [], 1, history, w);
      if first.end.Onward? {
        RunBodyShrinks(env, steps[1..], pos, index + 1, number, history + LeafOutcomes(first.leaf), first.world);
      }
    }
  }

  /** Run a loop from iteration |earlier| + 1 on. */
  function RunLoop(env: Env, loop: LoopDef, pos: nat, earlier: seq<Iteration>, granted: nat, history: seq<Outcome>,
                   w: World): LoopRun
    decreases |w.replies|, Left(loop, granted, |earlier|), 1
  {
    RunBodyShrinks(env, loop.body, pos, 0, |earlier| + 1, history, w);
    var number := |earlier| + 1;
    var body := RunBody(env, loop.body, pos, 0, number, history, w);
    if body.end == StopWith(Returned(RunFailed)) then
      LoopRun(LoopOf(loop, Failed, earlier + [Iteration(number, Failed, body.leaves, None)], granted),
              body.end, body.world)
    else if body.end.StopWith? then
      LoopRun(LoopOf(loop, Running, earlier + [Iteration(number, Running, body.leaves, None)], granted),
              body.end, body.world)
    else
      var passed := forall i :: 0 <= i < |loop.until| ==>
                      env.holds(loop.until[i], number, IterationResults(body.leaves));
      var its := earlier + [Iteration(number, Completed, body.leaves, Some(passed))];
      var after := history + LeavesOutcomes(body.leaves);
      if passed then LoopRun(LoopOf(loop, Completed, its, granted), Onward, body.world)
      else if number < loop.maxIterations + granted then RunLoop(env, loop, pos, its, granted, after, body.world)
      else AtCeiling(env, loop, pos, its, granted, after, body.world)
  }

  /** The loop's last allowed iteration did not meet its conditions. */
  function AtCeiling(env: Env, loop: LoopDef, pos: nat, its: seq<Iteration>, granted: nat, history: seq<Outcome>,
                     w: World): LoopRun
    requires |its| >= loop.maxIterations + granted
    decreases |w.replies|, 0, 0
  {
    var failed := LoopRun(LoopOf(loop, Failed, its, granted), StopWith(Returned(RunFailed)), w);
    match loop.onMaxIterations
    case Abort => failed
    case Continue => LoopRun(LoopOf(loop, Completed, its, granted), Onward, w)
    case _ =>
      if !env.hasPrompter || env.noTty then failed
      else if w.replies == [] then LoopRun(LoopOf(loop, Running, its, granted), StopWith(Killed), w)
      else
        var w1 := w.(replies := w.replies[1..]);
        match w.replies[0]
        case Interrupt => LoopRun(LoopOf(loop, Cancelled, its, granted), StopWith(Returned(RunCancelled)), w1)
        case Reply(_, _, answer) =>
          match answer
          case AnswerContinue => LoopRun(LoopOf(loop, Completed, its, granted), Onward, w1)
          case AnswerAbort => LoopRun(LoopOf(loop, Failed, its, granted), StopWith(Returned(RunFailed)), w1)
          case AnswerGrant => ContinueLoop(env, loop, pos, its, granted + CEILING_GRANT_COUNT, history, w1)
  }

  /** After a grant: another iteration when the raised ceiling allows one, else the ceiling again. */
  function ContinueLoop(env: Env, loop: LoopDef, pos: nat, its: seq<Iteration>, granted: nat, history: seq<Outcome>,
                        w: World): LoopRun
    decreases |w.replies|, Left(loop, granted, |its|), 2
  {
    if |its| < loop.maxIterations + granted then RunLoop(env, loop, pos, its, granted, history, w)
    else AtCeiling(env, loop, pos, its, granted, history, w)
  }

  /** Run the definitions in order; whatever comes after the one that stopped the run stays pending. */
  function RunPlan(env: Env, defs: seq<Definition>, pos: nat, history: seq<Outcome>, w: World): PlanRun
    decreases |defs|
  {
    if defs == [] then PlanRun([], Returned(RunCompleted), w)
    else
      var (node, end, w1) := RunDefinition(env, defs[0], pos, history, w);
      match end
      case StopWith(ending) => PlanRun([node] + PlanNodes(defs[1..]), ending, w1)
      case Onward =>
        var rest := RunPlan(env, defs[1..], pos + 1, history + NodeOutcomes(node), w1);
        PlanRun([node] + rest.nodes, rest.ending, rest.world)
  }

  function RunDefinition(env: Env, d: Definition, pos: nat, history: seq<Outcome>, w: World): (Node, End, World) {
    match d
    case StepItem(step) =>
      var run := RunStep(env, step, Spot(Top(pos), None), [], 1, history, w);
      (StepNode(run.leaf), run.end, run.world)
    case LoopItem(loop) =>
      var run := RunLoop(env, loop, pos, [], 0, history, w);
      (run.node, run.end, run.world)
  }
}
