/** The coordinator as a state machine. One Propose is everything RunCoordinator does up to and including
    one commit: it selects the next move from the tree, makes at most one external call, and says which
    tree it would commit. The revision and the run row are added in module Rows. */
module Transitions {
  import opened StateModels
  import opened FailureRules
  import opened LoopPolicy
  import opened Projection

  const CEILING_GRANT_COUNT: nat := 3

  /** What one external call answers: run_attempt reads result, the prompters read step or loop, and
      any of them may raise KeyboardInterrupt. */
  datatype Reply = Interrupt | Reply(result: StepResult, step: StepDecision, loop: LoopAnswer)

  /** What a coordinator is bound to; holds interprets one until expression. */
  datatype Env = Env(blueprint: seq<Definition>, hasPrompter: bool, noTty: bool,
                     holds: (string, nat, map<string, StepResult>) -> bool)
  {
    predicate Interactive() { !noTty && hasPrompter }
  }

  /** A leaf's place in the tree: a top-level step, or a body step of a loop's last iteration. */
  datatype Target = Top(pos: nat) | Body(pos: nat, index: nat)

  /** How execute() ends; Killed means the process died inside an external call. */
  datatype Ending = Returned(status: RunStatus) | Killed

  datatype Control =
    | Starting                  // loaded, interrupted attempts not yet recovered
    | Ready                     // select the next move from the tree
    | Prompting(at: Target)     // the paused leaf is committed, its prompt is open
    | FailingLoop(pos: nat)     // a body step failed: the loop is failed next
    | Halted(ending: Ending)

  /** The place a step is run at, and the number of its iteration when it is a body step. */
  datatype Spot = Spot(at: Target, iteration: Option<nat>)

  /** One call of run_attempt, with everything the step is given. */
  datatype Execution = Execution(step: StepDef, spot: Spot, attempt: nat, steps: seq<Metadata>)

  datatype Core = Core(nodes: seq<Node>, control: Control, replies: seq<Reply>, executed: seq<Execution>,
                       hasError: bool)

  /** The state to commit, or to move to when nothing is committed; refused is where the coordinator
      continues when the commit is refused. */
  datatype Effect = Effect(core: Core, commit: bool, status: Option<RunStatus>, refused: Control)

  // ---- places in the tree ----

  predicate LeafAt(nodes: seq<Node>, at: Target) {
    at.pos < |nodes| &&
    match at
    case Top(pos) => nodes[pos].StepNode?
    case Body(pos, index) =>
      && nodes[pos].LoopNode? && nodes[pos].iterations != []
      && index < |Last(nodes[pos].iterations).steps|
  }

  function GetLeaf(nodes: seq<Node>, at: Target): Leaf
    requires LeafAt(nodes, at)
  {
    match at
    case Top(pos) => nodes[pos].leaf
    case Body(pos, index) => Last(nodes[pos].iterations).steps[index]
  }

  function SetLastIteration(nodes: seq<Node>, pos: nat, it: Iteration): (r: seq<Node>)
    requires pos < |nodes| && nodes[pos].LoopNode? && nodes[pos].iterations != []
    ensures |r| == |nodes|
  {
    nodes[pos := nodes[pos].(iterations := WithLast(nodes[pos].iterations, it))]
  }

  function SetLeaf(nodes: seq<Node>, at: Target, leaf: Leaf): (r: seq<Node>)
    requires LeafAt(nodes, at)
    ensures |r| == |nodes| && LeafAt(r, at) && GetLeaf(r, at) == leaf
    ensures forall i :: 0 <= i < |nodes| && i != at.pos ==> r[i] == nodes[i]
  {
    match at
    case Top(pos) => nodes[pos := StepNode(leaf)]
    case Body(pos, index) =>
      var it := Last(nodes[pos].iterations);
      SetLastIteration(nodes, pos, it.(steps := it.steps[index := leaf]))
  }

  /** The number of the iteration a leaf belongs to, when it is a body step. */
  function IterationOf(nodes: seq<Node>, at: Target): Option<nat>
    requires LeafAt(nodes, at)
  {
    match at
    case Top(_) => None
    case Body(pos, _) => Some(Last(nodes[pos].iterations).number)
  }

  function SpotOf(nodes: seq<Node>, at: Target): Spot
    requires LeafAt(nodes, at)
  {
    Spot(at, IterationOf(nodes, at))
  }

  // ---- selecting the next move ----

  function FirstLive(nodes: seq<Node>): (r: nat)
    ensures r <= |nodes|
    ensures forall i :: 0 <= i < r ==> Terminal(NodeStateOf(nodes[i]))
    ensures r < |nodes| ==> !Terminal(NodeStateOf(nodes[r]))
  {
    if nodes == [] || !Terminal(NodeStateOf(nodes[0])) then 0 else 1 + FirstLive(nodes[1..])
  }

  /** The first definition with this id, as _dispatch looks it up. */
  function Lookup(defs: seq<Definition>, id: string): Option<Definition> {
    if defs == [] then None
    else if DefinitionId(defs[0]) == id then Some(defs[0])
    else Lookup(defs[1..], id)
  }

  /** The id finds this step, or a loop with this body: all that dispatch uses of a definition. */
  predicate FindsStep(defs: seq<Definition>, id: string, step: StepDef) {
    Lookup(defs, id) == Some(StepItem(step))
  }

  predicate FindsBody(defs: seq<Definition>, id: string, body: seq<StepDef>) {
    Lookup(defs, id).Some? && Lookup(defs, id).value.LoopItem? && Lookup(defs, id).value.loop.body == body
  }

  datatype Move =
    | AllTerminal
    | NoDefinition
    | RunSlot(at: Target, step: StepDef)
    | OpenLoop(pos: nat)
    | LoopMove(pos: nat, body: seq<StepDef>, decision: LoopDecision)

  function SelectMove(defs: seq<Definition>, nodes: seq<Node>): Move
    requires Runnable(defs, nodes)
  {
    var pos := FirstLive(nodes);
    if pos == |nodes| then AllTerminal
    else
      var definition := Lookup(defs, NodeId(nodes[pos]));
      if nodes[pos].StepNode? && definition.Some? && definition.value.StepItem? then
        RunSlot(Top(pos), definition.value.step)
      else if nodes[pos].LoopNode? && definition.Some? && definition.value.LoopItem? then
        LoopNodeMove(nodes[pos], pos, definition.value.loop.body)
      else
        NoDefinition
  }

  function LoopNodeMove(node: Node, pos: nat, body: seq<StepDef>): Move
    requires node.LoopNode? && node.iterations != []
  {
    if node.state.Pending? then OpenLoop(pos)
    else
      var decision := Decide(node, body);
      if decision.AdvanceBodyStep? then RunSlot(Body(pos, decision.index), body[decision.index])
      else LoopMove(pos, body, decision)
  }

  // ---- what a tree must satisfy for the coordinator not to raise ----

  predicate RunnableLeaf(leaf: Leaf) {
    leaf.state.Running? ==> leaf.attempts != []
  }

  predicate RunnableNode(defs: seq<Definition>, n: Node) {
    match n
    case StepNode(leaf) => RunnableLeaf(leaf)
    case LoopNode(id, _, _, _, _, its, _) =>
      && its != []
      && (forall i :: 0 <= i < |Last(its).steps| ==> RunnableLeaf(Last(its).steps[i]))
      && (var d := Lookup(defs, id);
          d.Some? && d.value.LoopItem? ==> |Last(its).steps| == |d.value.loop.body|)
  }

  /** Guaranteed by the tree schema, validate_loop_structure and the coordinator itself; it still admits
      trees whose steps have no definition or whose paused leaves have no result. */
  predicate Runnable(defs: seq<Definition>, nodes: seq<Node>) {
    forall i :: 0 <= i < |nodes| ==> RunnableNode(defs, nodes[i])
  }

  predicate ControlFits(c: Core) {
    match c.control
    case Prompting(at) =>
      && LeafAt(c.nodes, at) && GetLeaf(c.nodes, at).attempts != []
      && Last(GetLeaf(c.nodes, at).attempts).result.Some?
    case FailingLoop(pos) => pos < |c.nodes| && c.nodes[pos].LoopNode? && c.nodes[pos].iterations != []
    case _ => true
  }

  predicate Sound(env: Env, c: Core) {
    Runnable(env.blueprint, c.nodes) && ControlFits(c)
  }

  /** The slot selected is a live leaf. */
  lemma SlotSelected(env: Env, nodes: seq<Node>, at: Target, step: StepDef)
    requires Runnable(env.blueprint, nodes) && SelectMove(env.blueprint, nodes) == RunSlot(at, step)
    ensures LeafAt(nodes, at) && RunnableLeaf(GetLeaf(nodes, at)) && !Terminal(GetLeaf(nodes, at).state)
  {
    assert RunnableNode(env.blueprint, nodes[at.pos]);
  }

  // ---- recovery ----

  predicate OpenAttempt(leaf: Leaf) {
    leaf.state.Running? && leaf.attempts != [] && Last(leaf.attempts).result.None?
  }

  function InterruptedResult(leaf: Leaf): StepResult
    requires leaf.attempts != []
  {
    StepResult(leaf.id, ResultFailed, 1, "", Last(leaf.attempts).number, InterruptedAttempt)
  }

  function RecoverLeaf(leaf: Leaf): Leaf {
    if OpenAttempt(leaf) then
      var a := Last(leaf.attempts);
      leaf.(attempts := WithLast(leaf.attempts, a.(result := Some(InterruptedResult(leaf)))), state := Paused)
    else leaf
  }

  function RecoverLeaves(leaves: seq<Leaf>): (r: seq<Leaf>)
    ensures |r| == |leaves|
    ensures forall i :: 0 <= i < |r| ==> r[i] == RecoverLeaf(leaves[i])
  {
    seq(|leaves|, i requires 0 <= i < |leaves| => RecoverLeaf(leaves[i]))
  }

  function RecoverIteration(it: Iteration): Iteration {
    it.(steps := RecoverLeaves(it.steps))
  }

  function RecoverIterations(its: seq<Iteration>): (r: seq<Iteration>)
    ensures |r| == |its|
    ensures forall i :: 0 <= i < |r| ==> r[i] == RecoverIteration(its[i])
  {
    seq(|its|, i requires 0 <= i < |its| => RecoverIteration(its[i]))
  }

  function RecoverNode(n: Node): Node {
    match n
    case StepNode(leaf) => StepNode(RecoverLeaf(leaf))
    case LoopNode(_, _, _, _, _, its, _) => n.(iterations := RecoverIterations(its))
  }

  /** Every leaf that was running an unfinished attempt is closed as interrupted and paused. */
  function Recover(nodes: seq<Node>): (r: seq<Node>)
    ensures |r| == |nodes|
    ensures forall i :: 0 <= i < |r| ==> r[i] == RecoverNode(nodes[i])
  {
    seq(|nodes|, i requires 0 <= i < |nodes| => RecoverNode(nodes[i]))
  }

  predicate NodeHasOpenAttempt(n: Node) {
    match n
    case StepNode(leaf) => OpenAttempt(leaf)
    case LoopNode(_, _, _, _, _, its, _) =>
      exists j :: 0 <= j < |its| && exists k :: 0 <= k < |its[j].steps| && OpenAttempt(its[j].steps[k])
  }

  predicate HasOpenAttempt(nodes: seq<Node>) {
    exists i :: 0 <= i < |nodes| && NodeHasOpenAttempt(nodes[i])
  }

  function StartUp(c: Core): Effect {
    Effect(c.(nodes := Recover(c.nodes), control := Ready), HasOpenAttempt(c.nodes), None,
           Halted(Returned(RunFailed)))
  }

  // ---- leaf transitions ----

  /** Where the coordinator goes when the leaf at this place fails, or a commit about it is refused. */
  function FailedAt(at: Target): Control {
    match at
    case Top(_) => Halted(Returned(RunFailed))
    case Body(pos, _) => FailingLoop(pos)
  }

  function Stop(c: Core, ending: Ending): Effect {
    Effect(c.(control := Halted(ending)), false, None, Halted(ending))
  }

  function BeginAttempt(c: Core, at: Target, number: nat, status: Option<RunStatus>): Effect
    requires LeafAt(c.nodes, at)
  {
    var leaf := GetLeaf(c.nodes, at);
    Effect(c.(nodes := SetLeaf(c.nodes, at,
                               leaf.(attempts := leaf.attempts + [Attempt(number, None)], state := Running)),
              control := Ready),
           true, status, FailedAt(at))
  }

  /** _finish_leaf after success or continue, replacing the last result. */
  function SettleLeaf(c: Core, at: Target, state: NodeState, result: StepResult, status: Option<RunStatus>): Effect
    requires LeafAt(c.nodes, at) && GetLeaf(c.nodes, at).attempts != []
  {
    var leaf := GetLeaf(c.nodes, at);
    var attempts := WithLast(leaf.attempts, Last(leaf.attempts).(result := Some(result)));
    Effect(c.(nodes := SetLeaf(c.nodes, at, leaf.(attempts := attempts, state := state)), control := Ready),
           true, status, FailedAt(at))
  }

  function FailLeaf(c: Core, at: Target, status: Option<RunStatus>): Effect
    requires LeafAt(c.nodes, at)
  {
    var leaf := GetLeaf(c.nodes, at);
    Effect(c.(nodes := SetLeaf(c.nodes, at, leaf.(state := Failed)), control := FailedAt(at), hasError := true),
           true, status, FailedAt(at))
  }

  function ApplyAction(c: Core, at: Target, action: StepAction, result: StepResult, status: Option<RunStatus>): Effect
    requires LeafAt(c.nodes, at) && GetLeaf(c.nodes, at).attempts != []
  {
    match action
    case ActRetry => BeginAttempt(c, at, Last(GetLeaf(c.nodes, at).attempts).number + 1, Some(RunRunning))
    case ActContinue => SettleLeaf(c, at, Ignored, result, status)
    case ActAbort => FailLeaf(c, at, status)
  }

  /** The failure gate: what happens to a leaf whose last attempt failed. */
  function Gate(env: Env, c: Core, at: Target, step: StepDef): Effect
    requires LeafAt(c.nodes, at)
  {
    var leaf := GetLeaf(c.nodes, at);
    if leaf.attempts == [] || Last(leaf.attempts).result.None? then
      Effect(c.(control := FailedAt(at), hasError := true), false, None, FailedAt(at))
    else
      var result := Last(leaf.attempts).result.value;
      var policy := EffectivePolicy(step.onFailure);
      if policy.PromptUser? && env.Interactive() then
        Effect(c.(nodes := SetLeaf(c.nodes, at, leaf.(state := Paused)), control := Prompting(at)), true,
               Some(RunPaused), FailedAt(at))
      else if policy.PromptUser? then
        FailLeaf(c, at, None)
      else
        var (action, recorded) := ResolveTerminalAction(policy, result);
        ApplyAction(c, at, action, recorded, None)
  }

  function AnswerPrompt(env: Env, c: Core, at: Target): Effect
    requires c.control == Prompting(at) && ControlFits(c)
  {
    var result := Last(GetLeaf(c.nodes, at).attempts).result.value;
    if c.replies == [] then Stop(c, Killed)
    else
      var c1 := c.(replies := c.replies[1..]);
      if c.replies[0].Interrupt? then Stop(c1.(hasError := true), Returned(RunPaused))
      else
        var (action, recorded) := ApplyPromptDecision(c.replies[0].step, result);
        ApplyAction(c1, at, action, recorded, Some(RunRunning))
  }

  /** The leaf with the finished attempt recorded. */
  function RecordResult(leaf: Leaf, result: StepResult): Leaf
    requires leaf.attempts != []
  {
    leaf.(attempts := WithLast(leaf.attempts, Attempt(result.attempts, Some(result))))
  }

  function Settle(env: Env, c: Core, at: Target, step: StepDef, result: StepResult): Effect
    requires LeafAt(c.nodes, at) && GetLeaf(c.nodes, at).attempts != []
  {
    var c1 := c.(nodes := SetLeaf(c.nodes, at, RecordResult(GetLeaf(c.nodes, at), result)));
    if result.Ok() then
      SettleLeaf(c1, at, if result.status.ResultIgnored? then Ignored else Completed, result, None)
    else
      Gate(env, c1, at, step)
  }

  /** _cancel after an interrupted call on behalf of a leaf. */
  function CancelLeaf(c: Core, at: Target): Effect
    requires LeafAt(c.nodes, at)
  {
    Effect(c.(nodes := SetLeaf(c.nodes, at, GetLeaf(c.nodes, at).(state := Cancelled)),
              control := Halted(Returned(RunCancelled)), hasError := true),
           true, None, Halted(Returned(RunCancelled)))
  }

  /** The record of running the open attempt of the leaf at this place. */
  function ExecutionOf(nodes: seq<Node>, at: Target, step: StepDef): Execution
    requires LeafAt(nodes, at) && GetLeaf(nodes, at).attempts != []
  {
    Execution(step, SpotOf(nodes, at), Last(GetLeaf(nodes, at).attempts).number, Numbered(Outcomes(nodes)))
  }

  function RunAttempt(env: Env, c: Core, at: Target, step: StepDef): Effect
    requires LeafAt(c.nodes, at) && GetLeaf(c.nodes, at).attempts != []
  {
    var c1 := c.(executed := c.executed + [ExecutionOf(c.nodes, at, step)]);
    if c.replies == [] then Stop(c1, Killed)
    else
      var c2 := c1.(replies := c.replies[1..]);
      if c.replies[0].Interrupt? then CancelLeaf(c2, at)
      else Settle(env, c2, at, step, c.replies[0].result)
  }

  /** _advance_slot. */
  function AdvanceSlot(env: Env, c: Core, at: Target, step: StepDef): Effect
    requires LeafAt(c.nodes, at) && RunnableLeaf(GetLeaf(c.nodes, at))
    requires !Terminal(GetLeaf(c.nodes, at).state)
  {
    var leaf := GetLeaf(c.nodes, at);
    if leaf.state.Paused? then Gate(env, c, at, step)
    else if leaf.state.Pending? then BeginAttempt(c, at, 1, None)
    else RunAttempt(env, c, at, step)
  }

  // ---- loop transitions ----

  predicate LoopAt(nodes: seq<Node>, pos: nat) {
    pos < |nodes| && nodes[pos].LoopNode? && nodes[pos].iterations != []
  }

  /** _begin_iteration on the last iteration. */
  function OpenIteration(c: Core, pos: nat): Effect
    requires LoopAt(c.nodes, pos)
  {
    var loop := c.nodes[pos];
    var its := WithLast(loop.iterations, Last(loop.iterations).(state := Running));
    Effect(c.(nodes := c.nodes[pos := loop.(iterations := its, state := Running)], control := Ready),
           true, None, Halted(Returned(RunFailed)))
  }

  function RepeatIteration(c: Core, pos: nat, body: seq<StepDef>, number: nat): Effect
    requires LoopAt(c.nodes, pos)
  {
    var loop := c.nodes[pos];
    var its := loop.iterations + [NewIteration(body, number).(state := Running)];
    Effect(c.(nodes := c.nodes[pos := loop.(iterations := its, state := Running)], control := Ready),
           true, None, Halted(Returned(RunFailed)))
  }

  function CloseIteration(env: Env, c: Core, pos: nat): Effect
    requires LoopAt(c.nodes, pos)
  {
    var loop := c.nodes[pos];
    var it := Last(loop.iterations);
    var passed := UntilHolds(env.holds, loop.until, it.number, IterationResults(it.steps));
    Effect(c.(nodes := SetLastIteration(c.nodes, pos, it.(untilPassed := Some(passed), state := Completed)),
              control := Ready),
           true, None, Halted(Returned(RunFailed)))
  }

  /** _finish_loop; error says whether a diagnostic is recorded as an error. */
  function FinishLoop(c: Core, pos: nat, failed: bool, error: bool): Effect
    requires LoopAt(c.nodes, pos)
  {
    var loop := c.nodes[pos];
    var it := Last(loop.iterations);
    var it1 := if failed && !Terminal(it.state) then it.(state := Failed) else it;
    Effect(c.(nodes := c.nodes[pos := loop.(iterations := WithLast(loop.iterations, it1),
                                             state := if failed then Failed else Completed)],
              control := if failed then Halted(Returned(RunFailed)) else Ready,
              hasError := c.hasError || error),
           true, None, Halted(Returned(RunFailed)))
  }

  function CancelLoop(c: Core, pos: nat): Effect
    requires LoopAt(c.nodes, pos)
  {
    Effect(c.(nodes := c.nodes[pos := c.nodes[pos].(state := Cancelled)],
              control := Halted(Returned(RunCancelled)), hasError := true),
           true, None, Halted(Returned(RunCancelled)))
  }

  function GrantIterations(c: Core, pos: nat): Effect
    requires LoopAt(c.nodes, pos)
  {
    var loop := c.nodes[pos];
    Effect(c.(nodes := c.nodes[pos := loop.(granted := loop.granted + CEILING_GRANT_COUNT)], control := Ready),
           true, None, Halted(Returned(RunFailed)))
  }

  /** _resolve_ceiling. */
  function ResolveCeiling(env: Env, c: Core, pos: nat): Effect
    requires LoopAt(c.nodes, pos)
  {
    if !env.Interactive() then FinishLoop(c, pos, true, true)
    else if c.replies == [] then Stop(c, Killed)
    else
      var c1 := c.(replies := c.replies[1..]);
      if c.replies[0].Interrupt? then CancelLoop(c1, pos)
      else
        match c.replies[0].loop
        case AnswerGrant => GrantIterations(c1, pos)
        case AnswerContinue => FinishLoop(c1, pos, false, false)
        case AnswerAbort => FinishLoop(c1, pos, true, true)
  }

  /** _apply_loop_decision for every decision but advancing a body step. */
  function ApplyLoopDecision(env: Env, c: Core, pos: nat, body: seq<StepDef>, decision: LoopDecision): Effect
    requires LoopAt(c.nodes, pos) && !decision.AdvanceBodyStep?
  {
    match decision
    case CompleteIteration => CloseIteration(env, c, pos)
    case RepeatNextIteration(number) => RepeatIteration(c, pos, body, number)
    case TerminateLoopPassed => FinishLoop(c, pos, false, false)
    case TerminateLoopCeiling =>
      var failed := c.nodes[pos].onMaxIterations.Abort?;
      FinishLoop(c, pos, failed, failed)
    case PromptCeiling => ResolveCeiling(env, c, pos)
  }

  // ---- the machine ----

  function ApplyMove(env: Env, c: Core): Effect
    requires Runnable(env.blueprint, c.nodes)
  {
    match SelectMove(env.blueprint, c.nodes)
    case AllTerminal => Stop(c, Returned(RunCompleted))
    case NoDefinition => Stop(c.(hasError := true), Returned(RunFailed))
    case RunSlot(at, step) => AdvanceSlot(env, c, at, step)
    case OpenLoop(pos) => OpenIteration(c, pos)
    case LoopMove(pos, body, decision) => ApplyLoopDecision(env, c, pos, body, decision)
  }

  function Propose(env: Env, c: Core): Effect
    requires Sound(env, c)
  {
    match c.control
    case Halted(_) => Effect(c, false, None, c.control)
    case Starting => StartUp(c)
    case Ready => ApplyMove(env, c)
    case Prompting(at) => AnswerPrompt(env, c, at)
    case FailingLoop(pos) => FinishLoop(c, pos, true, false)
  }
}
