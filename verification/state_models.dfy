/** The execution-state tree of a run, its step definitions and its results.
    Timestamps and the frozen manifest are not represented. */
module StateModels {

  datatype Option<+T> = None | Some(value: T)

  datatype NodeState = Pending | Running | Completed | Ignored | Failed | Paused | Cancelled

  /** TERMINAL_NODE_STATES. */
  predicate Terminal(s: NodeState) {
    s.Completed? || s.Ignored? || s.Failed? || s.Cancelled?
  }

  /** The two ways a node ends without stopping its run. */
  predicate Settled(s: NodeState) {
    s.Completed? || s.Ignored?
  }

  datatype RunStatus = RunRunning | RunCompleted | RunFailed | RunCancelled | RunPaused

  datatype FailurePolicy = Abort | Continue | PromptUser | Retry

  const ON_FAILURE_MAX_RETRIES_MINIMUM: nat := 1

  /** max_retries as the schema accepts it. */
  type RetryCount = n: nat | ON_FAILURE_MAX_RETRIES_MINIMUM <= n witness ON_FAILURE_MAX_RETRIES_MINIMUM

  datatype OnFailure = OnFailure(action: FailurePolicy, maxRetries: RetryCount, onMaxRetries: FailurePolicy)

  /** error_message with its wording abstracted: only where it came from is kept. */
  datatype Diagnostic = Silent | Reported(text: string) | InterruptedAttempt | UserContinued(cause: Diagnostic)

  datatype ResultStatus = ResultCompleted | ResultFailed | ResultIgnored

  datatype StepResult = StepResult(stepId: string, status: ResultStatus, exitCode: int, output: string,
                                   attempts: nat, diagnostic: Diagnostic)
  {
    predicate Ok() { status.ResultCompleted? || status.ResultIgnored? }
  }

  datatype Attempt = Attempt(number: nat, result: Option<StepResult>)

  datatype Leaf = Leaf(id: string, name: string, state: NodeState, attempts: seq<Attempt>)

  datatype Iteration = Iteration(number: nat, state: NodeState, steps: seq<Leaf>, untilPassed: Option<bool>)

  datatype Node =
    | StepNode(leaf: Leaf)
    | LoopNode(id: string, maxIterations: nat, until: seq<string>, onMaxIterations: FailurePolicy,
               state: NodeState, iterations: seq<Iteration>, granted: nat)

  function NodeStateOf(n: Node): NodeState {
    match n
    case StepNode(leaf) => leaf.state
    case LoopNode(_, _, _, _, state, _, _) => state
  }

  function NodeId(n: Node): string {
    match n
    case StepNode(leaf) => leaf.id
    case LoopNode(id, _, _, _, _, _, _) => id
  }

  function IterationCeiling(n: Node): nat
    requires n.LoopNode?
  {
    n.maxIterations + n.granted
  }

  function Last<T>(s: seq<T>): T
    requires s != []
  {
    s[|s| - 1]
  }

  function WithLast<T>(s: seq<T>, x: T): (r: seq<T>)
    requires s != []
    ensures r == s[..|s| - 1] + [x]
  {
    s[|s| - 1 := x]
  }

  // ---- definitions ----

  datatype StepDef = StepDef(id: string, name: string, onFailure: OnFailure)

  datatype LoopDef = LoopDef(id: string, maxIterations: nat, until: seq<string>, body: seq<StepDef>,
                             onMaxIterations: FailurePolicy)

  datatype Definition = StepItem(step: StepDef) | LoopItem(loop: LoopDef)

  function DefinitionId(d: Definition): string {
    match d
    case StepItem(step) => step.id
    case LoopItem(loop) => loop.id
  }

  // ---- plan builders (state_store.py) ----

  function PendingLeaf(step: StepDef): Leaf {
    Leaf(step.id, step.name, Pending, [])
  }

  function PendingLeaves(steps: seq<StepDef>): (r: seq<Leaf>)
    ensures |r| == |steps|
    ensures forall i :: 0 <= i < |r| ==> r[i] == PendingLeaf(steps[i])
  {
    seq(|steps|, i requires 0 <= i < |steps| => PendingLeaf(steps[i]))
  }

  function NewIteration(body: seq<StepDef>, number: nat): Iteration {
    Iteration(number, Pending, PendingLeaves(body), None)
  }

  function PlanNode(d: Definition): Node {
    match d
    case StepItem(step) => StepNode(PendingLeaf(step))
    case LoopItem(loop) =>
      LoopNode(loop.id, loop.maxIterations, loop.until, loop.onMaxIterations, Pending, [NewIteration(loop.body, 1)], 0)
  }

  function PlanNodes(defs: seq<Definition>): (r: seq<Node>)
    ensures |r| == |defs|
    ensures forall i :: 0 <= i < |r| ==> r[i] == PlanNode(defs[i])
  {
    seq(|defs|, i requires 0 <= i < |defs| => PlanNode(defs[i]))
  }
}
