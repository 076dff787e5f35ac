/** How often a run can call run_attempt: once per slot of the blueprint, once more per retry answered, and three
    bodies more per grant. */
module Bounds {
  import opened StateModels
  import opened FailureRules
  import opened LoopPolicy
  import opened Transitions
  import opened Moves
  import opened Soundness
  import opened Solo
  import opened Refinement
  import opened Frontier
  import opened Guarantees
  import opened Restart

  function LeafSlots(leaf: Leaf): nat {
    if leaf.state.Pending? || leaf.state.Running? then 1 else 0
  }

  function LeavesSlots(leaves: seq<Leaf>): nat {
    if leaves == [] then 0 else LeavesSlots(leaves[..|leaves| - 1]) + LeafSlots(Last(leaves))
  }

  function Remaining(max: nat, granted: nat, number: nat): nat {
    if max + granted > number then max + granted - number else 0
  }

  /** The calls a node can still make without a retry or a grant. */
  function NodeSlots(n: Node): nat {
    match n
    case StepNode(leaf) => LeafSlots(leaf)
    case LoopNode(_, max, _, _, state, its, granted) =>
      if Terminal(state) || its == [] then 0
      else Remaining(max, granted, Last(its).number) * |Last(its).steps| + LeavesSlots(Last(its).steps)
  }

  function Slots(nodes: seq<Node>): nat {
    if nodes == [] then 0 else Slots(nodes[..|nodes| - 1]) + NodeSlots(Last(nodes))
  }

  /** What an answer read at this step adds: one call for a retry, three bodies for a grant. */
  function Extra(env: Env, c: Core): nat
    requires Sound(env, c)
  {
    if c.replies == [] || c.replies[0].Interrupt? then 0
    else
      match c.control
      case Prompting(_) => if c.replies[0].step.DecideRetry? then 1 else 0
      case Ready =>
        var move := SelectMove(env.blueprint, c.nodes);
        if move.LoopMove? && move.decision.PromptCeiling? && env.Interactive() && c.replies[0].loop.AnswerGrant? then
          3 * |move.body|
        else 0
      case _ => 0
  }

  /** What the answers read over the whole run add. */
  function Extras(env: Env, c: Core): nat
    requires Sound(env, c)
    decreases |c.replies|, Rank(c.nodes), ControlRank(c.control)
  {
    if c.control.Halted? then 0
    else
      ProposeLowers(env, c);
      Extra(env, c) + Extras(env, Next(env, c))
  }

  // ---- slots of a changed tree ----

  lemma {:induction false} LeavesSlotsUpdate(leaves: seq<Leaf>, i: nat, leaf: Leaf)
    requires i < |leaves|
    ensures LeavesSlots(leaves[i := leaf]) == LeavesSlots(leaves) - LeafSlots(leaves[i]) + LeafSlots(leaf)
  {
    var n := |leaves| - 1;
    if i == n {
      assert leaves[i := leaf][..n] == leaves[..n];
    } else {
      assert leaves[i := leaf][..n] == leaves[..n][i := leaf];
      LeavesSlotsUpdate(leaves[..n], i, leaf);
    }
  }

  lemma {:induction false} SlotsUpdate(nodes: seq<Node>, i: nat, n: Node)
    requires i < |nodes|
    ensures Slots(nodes[i := n]) == Slots(nodes) - NodeSlots(nodes[i]) + NodeSlots(n)
  {
    hide NodeSlots;
    var k := |nodes| - 1;
    if i == k {
      assert nodes[i := n][..k] == nodes[..k];
    } else {
      assert nodes[i := n][..k] == nodes[..k][i := n];
      SlotsUpdate(nodes[..k], i, n);
    }
  }

  lemma LeafChangeSlots(nodes: seq<Node>, at: Target, leaf: Leaf)
    requires LeafAt(nodes, at)
    ensures Slots(SetLeaf(nodes, at, leaf)) <= Slots(nodes)
            || (LeafSlots(GetLeaf(nodes, at)) == 0 && Slots(SetLeaf(nodes, at, leaf)) <= Slots(nodes) + LeafSlots(leaf))
    ensures !Terminal(NodeStateOf(nodes[at.pos])) && GetLeaf(nodes, at).state.Running? && LeafSlots(leaf) == 0 ==>
              Slots(SetLeaf(nodes, at, leaf)) == Slots(nodes) - 1
  {
    var n := SetLeaf(nodes, at, leaf)[at.pos];
    assert SetLeaf(nodes, at, leaf) == nodes[at.pos := n];
    SlotsUpdate(nodes, at.pos, n);
    if at.Body? {
      var steps := Last(nodes[at.pos].iterations).steps;
      assert Last(n.iterations).steps == steps[at.index := leaf];
      LeavesSlotsUpdate(steps, at.index, leaf);
    }
  }

  lemma {:induction false} RecoveredLeavesSlots(leaves: seq<Leaf>)
    ensures LeavesSlots(RecoverLeaves(leaves)) <= LeavesSlots(leaves)
  {
    if leaves != [] {
      assert RecoverLeaves(leaves)[..|leaves| - 1] == RecoverLeaves(leaves[..|leaves| - 1]);
      RecoveredLeavesSlots(leaves[..|leaves| - 1]);
    }
  }

  lemma {:induction false} RecoveredSlots(nodes: seq<Node>)
    ensures Slots(Recover(nodes)) <= Slots(nodes)
  {
    hide Recover;
    if nodes != [] {
      assert Recover(nodes)[..|nodes| - 1] == Recover(nodes[..|nodes| - 1]);
      RecoveredSlots(nodes[..|nodes| - 1]);
      var n := Last(nodes);
      if n.LoopNode? && n.iterations != [] {
        assert Last(RecoverIterations(n.iterations)) == RecoverIteration(Last(n.iterations));
        RecoveredLeavesSlots(Last(n.iterations).steps);
      }
    }
  }

  lemma {:induction false} PendingSlots(steps: seq<StepDef>)
    ensures LeavesSlots(PendingLeaves(steps)) == |steps|
  {
    if steps != [] {
      assert PendingLeaves(steps)[..|steps| - 1] == PendingLeaves(steps[..|steps| - 1]);
      PendingSlots(steps[..|steps| - 1]);
    }
  }

  // ---- one step ----

  /** Calls made so far and calls still possible. */
  function Spent(c: Core): nat { |c.executed| + Slots(c.nodes) }

  /** A process that dies in a call has made it without using its slot up. */
  predicate Within(c: Core, bound: nat) {
    if c.control == Halted(Killed) then |c.executed| <= bound else Spent(c) <= bound
  }

  lemma SlotSpends(env: Env, c: Core, at: Target, step: StepDef)
    requires Runnable(env.blueprint, c.nodes) && c.control.Ready?
    requires SelectMove(env.blueprint, c.nodes) == RunSlot(at, step)
    ensures LeafAt(c.nodes, at) && RunnableLeaf(GetLeaf(c.nodes, at)) && !Terminal(GetLeaf(c.nodes, at).state)
    ensures Within(AdvanceSlot(env, c, at, step).core, Spent(c))
  {
    SlotSelected(env, c.nodes, at, step);
    assert !Terminal(NodeStateOf(c.nodes[at.pos]));
    hide SelectMove, Runnable, AdvanceSlot;
    SlotExecuted(env, c, at, step);
    SlotEffect(env, c, at, step);
    var e := AdvanceSlot(env, c, at, step);
    LeafChangeSlots(c.nodes, at, GetLeaf(c.nodes, at).(state := Failed));
    if e.core.nodes != c.nodes {
      LeafChangeSlots(c.nodes, at, GetLeaf(e.core.nodes, at));
    }
    SlotLeaves(env, c, at, step);
  }

  /** A leaf that ran, or was paused, does not come out running. */
  lemma SlotLeaves(env: Env, c: Core, at: Target, step: StepDef)
    requires LeafAt(c.nodes, at) && RunnableLeaf(GetLeaf(c.nodes, at)) && !Terminal(GetLeaf(c.nodes, at).state)
    ensures var e := AdvanceSlot(env, c, at, step);
            && LeafAt(e.core.nodes, at)
            && (!GetLeaf(c.nodes, at).state.Pending? && e.core.control != Halted(Killed) ==>
                  LeafSlots(GetLeaf(e.core.nodes, at)) == 0)
  {
    hide SetLeaf, Gate, Settle;
    if GetLeaf(c.nodes, at).state.Paused? {
      GateState(env, c, at, step);
    } else if GetLeaf(c.nodes, at).state.Running? && c.replies != [] && !c.replies[0].Interrupt? {
      var x := ExecutionOf(c.nodes, at, step);
      SettleState(env, c.(executed := c.executed + [x], replies := c.replies[1..]), at, step, c.replies[0].result);
    }
  }

  predicate Unslotted(nodes: seq<Node>, at: Target) {
    LeafAt(nodes, at) && LeafSlots(GetLeaf(nodes, at)) == 0
  }

  lemma GateState(env: Env, c: Core, at: Target, step: StepDef)
    requires LeafAt(c.nodes, at)
    requires GetLeaf(c.nodes, at).state.Paused?
             || (GetLeaf(c.nodes, at).attempts != [] && Last(GetLeaf(c.nodes, at).attempts).result.Some?)
    ensures Unslotted(Gate(env, c, at, step).core.nodes, at)
  {
    hide SetLeaf;
  }

  lemma SettleState(env: Env, c: Core, at: Target, step: StepDef, r: StepResult)
    requires LeafAt(c.nodes, at) && GetLeaf(c.nodes, at).attempts != []
    ensures Unslotted(Settle(env, c, at, step, r).core.nodes, at)
  {
    hide SetLeaf, Gate;
    if !r.Ok() {
      GateState(env, c.(nodes := SetLeaf(c.nodes, at, RecordResult(GetLeaf(c.nodes, at), r))), at, step);
    }
  }

  lemma RepeatSpends(env: Env, c: Core, pos: nat, body: seq<StepDef>)
    requires LoopAt(c.nodes, pos) && RunnableNode(env.blueprint, c.nodes[pos]) && !Terminal(c.nodes[pos].state)
    requires FindsBody(env.blueprint, c.nodes[pos].id, body)
    requires Last(c.nodes[pos].iterations).number < IterationCeiling(c.nodes[pos])
    ensures Spent(RepeatIteration(c, pos, body, Last(c.nodes[pos].iterations).number + 1).core) <= Spent(c)
  {
    var number := Last(c.nodes[pos].iterations).number + 1;
    var n := RepeatIteration(c, pos, body, number).core.nodes[pos];
    SlotsUpdate(c.nodes, pos, n);
    PendingSlots(body);
    var left := IterationCeiling(c.nodes[pos]) - number;
    assert (left + 1) * |body| == left * |body| + |body|;
  }

  lemma GrantSpends(env: Env, c: Core, pos: nat, body: seq<StepDef>)
    requires LoopAt(c.nodes, pos) && RunnableNode(env.blueprint, c.nodes[pos])
    requires FindsBody(env.blueprint, c.nodes[pos].id, body)
    ensures Spent(GrantIterations(c, pos).core) <= Spent(c) + 3 * |body|
  {
    var n := GrantIterations(c, pos).core.nodes[pos];
    SlotsUpdate(c.nodes, pos, n);
    var it := Last(c.nodes[pos].iterations);
    var before := Remaining(n.maxIterations, c.nodes[pos].granted, it.number);
    var after := Remaining(n.maxIterations, n.granted, it.number);
    assert after <= before + 3;
    MulMonotone(after, before + 3, |body|);
    assert (before + 3) * |body| == before * |body| + 3 * |body|;
  }

  lemma MulMonotone(a: nat, b: nat, w: nat)
    requires a <= b
    ensures a * w <= b * w
  {
  }

  lemma DecisionSpends(env: Env, c: Core, pos: nat, body: seq<StepDef>, decision: LoopDecision)
    requires Sound(env, c) && c.control.Ready? && SelectMove(env.blueprint, c.nodes) == LoopMove(pos, body, decision)
    ensures LoopAt(c.nodes, pos) && !decision.AdvanceBodyStep?
    ensures Spent(ApplyLoopDecision(env, c, pos, body, decision).core) <= Spent(c) + Extra(env, c)
  {
    hide RunnableNode, UntilHolds, Spent, RepeatIteration, ResolveCeiling, FinishLoop, CloseIteration;
    LoopMoveFits(env, c.nodes, LoopMove(pos, body, decision));
    assert RunnableNode(env.blueprint, c.nodes[pos]);
    assert decision == Decide(c.nodes[pos], body) && !Terminal(c.nodes[pos].state);
    assert FindsBody(env.blueprint, c.nodes[pos].id, body);
    hide Runnable, SelectMove, Extra;
    match decision
    case RepeatNextIteration(_) => RepeatSpends(env, c, pos, body);
    case PromptCeiling => CeilingSpends(env, c, pos, body);
    case CompleteIteration => CloseSpends(env, c, pos);
    case TerminateLoopPassed => FinishSpends(c, pos, false, false);
    case TerminateLoopCeiling =>
      var failed := c.nodes[pos].onMaxIterations.Abort?;
      FinishSpends(c, pos, failed, failed);
  }

  lemma CloseSpends(env: Env, c: Core, pos: nat)
    requires LoopAt(c.nodes, pos)
    ensures Spent(CloseIteration(env, c, pos).core) <= Spent(c)
  {
    hide UntilHolds;
    SlotsUpdate(c.nodes, pos, CloseIteration(env, c, pos).core.nodes[pos]);
  }

  lemma FinishSpends(c: Core, pos: nat, failed: bool, error: bool)
    requires LoopAt(c.nodes, pos)
    ensures Spent(FinishLoop(c, pos, failed, error).core) <= Spent(c)
  {
    SlotsUpdate(c.nodes, pos, FinishLoop(c, pos, failed, error).core.nodes[pos]);
  }

  lemma CeilingSpends(env: Env, c: Core, pos: nat, body: seq<StepDef>)
    requires Sound(env, c) && c.control.Ready?
    requires SelectMove(env.blueprint, c.nodes) == LoopMove(pos, body, PromptCeiling)
    requires LoopAt(c.nodes, pos) && RunnableNode(env.blueprint, c.nodes[pos])
    requires FindsBody(env.blueprint, c.nodes[pos].id, body)
    ensures Spent(ResolveCeiling(env, c, pos).core) <= Spent(c) + Extra(env, c)
  {
    hide Runnable, RunnableNode, SelectMove;
    var e := ResolveCeiling(env, c, pos);
    SlotsUpdate(c.nodes, pos, e.core.nodes[pos]);
    if env.Interactive() && c.replies != [] && c.replies[0].Reply? && c.replies[0].loop.AnswerGrant? {
      GrantSpends(env, c.(replies := c.replies[1..]), pos, body);
    }
  }

  lemma AnswerSpends(env: Env, c: Core, at: Target)
    requires Sound(env, c) && c.control == Prompting(at) && GetLeaf(c.nodes, at).state.Paused?
    ensures Spent(AnswerPrompt(env, c, at).core) <= Spent(c) + Extra(env, c)
  {
    hide Runnable, SetLeaf;
    var e := AnswerPrompt(env, c, at);
    if c.replies != [] && !c.replies[0].Interrupt? {
      LeafChangeSlots(c.nodes, at, GetLeaf(e.core.nodes, at));
    }
  }

  lemma {:induction false} NextSpends(env: Env, c: Core, k: nat, bound: nat)
    requires Resolvable(env.blueprint) && AtWork(env, c, k) && Sound(env, c) && !c.control.Halted? && Spent(c) <= bound
    ensures Within(Next(env, c), bound + Extra(env, c))
  {
    hide Runnable, UntilHolds, AtWork;
    match c.control
    case Starting => RecoveredSlots(c.nodes);
    case Prompting(at) =>
      PromptIsPaused(env, c, k);
      AnswerSpends(env, c, at);
      hide ApplyMove, AnswerPrompt, Extra;
    case FailingLoop(pos) =>
      SlotsUpdate(c.nodes, pos, FinishLoop(c, pos, true, false).core.nodes[pos]);
      hide ApplyMove, Extra;
    case Ready => MoveSpends(env, c, bound);
  }

  lemma PromptIsPaused(env: Env, c: Core, k: nat)
    requires AtWork(env, c, k) && Sound(env, c) && c.control.Prompting?
    ensures GetLeaf(c.nodes, c.control.at).state.Paused?
  {
    hide Runnable, LiveTree;
  }

  lemma MoveSpends(env: Env, c: Core, bound: nat)
    requires Sound(env, c) && c.control.Ready? && Spent(c) <= bound
    ensures Within(Next(env, c), bound + Extra(env, c))
  {
    hide Extra, AdvanceSlot, ApplyLoopDecision, SetLeaf;
    match SelectMove(env.blueprint, c.nodes)
    case AllTerminal => hide Extra;
    case NoDefinition => hide Extra;
    case RunSlot(at, step) =>
      SlotSpends(env, c, at, step);
      hide SelectMove, Runnable;
    case OpenLoop(pos) =>
      SlotsUpdate(c.nodes, pos, OpenIteration(c, pos).core.nodes[pos]);
    case LoopMove(pos, body, decision) =>
      DecisionSpends(env, c, pos, body, decision);
      hide SelectMove, Runnable;
  }

  /** The bound: a run makes at most one call per slot of its tree, plus what its answers add. */
  lemma {:induction false} CallsBounded(env: Env, c: Core, k: nat, bound: nat)
    requires Resolvable(env.blueprint) && AtWork(env, c, k) && Sound(env, c) && Within(c, bound)
    ensures |Final(env, c).executed| <= bound + Extras(env, c)
    decreases |c.replies|, Rank(c.nodes), ControlRank(c.control)
  {
    hide AtWork, Sound, Next, Propose, Extra;
    if !c.control.Halted? {
      NextSpends(env, c, k, bound);
      ProposeLowers(env, c);
      NextIsPropose(env, c);
      var k1 := ProposeKeeps(env, c, k);
      CallsBounded(env, Next(env, c), k1, bound + Extra(env, c));
    }
  }

  // ---- the bound of a fresh plan ----

  function DefinitionSlots(d: Definition): nat {
    match d
    case StepItem(_) => 1
    case LoopItem(loop) => (if loop.maxIterations == 0 then 1 else loop.maxIterations) * |loop.body|
  }

  function BlueprintSlots(defs: seq<Definition>): nat {
    if defs == [] then 0 else BlueprintSlots(defs[..|defs| - 1]) + DefinitionSlots(Last(defs))
  }

  lemma {:induction false} PlanSlots(defs: seq<Definition>)
    ensures Slots(PlanNodes(defs)) == BlueprintSlots(defs)
  {
    if defs != [] {
      assert PlanNodes(defs)[..|defs| - 1] == PlanNodes(defs[..|defs| - 1]);
      PlanSlots(defs[..|defs| - 1]);
      PlanNodeSlots(Last(defs));
    }
  }

  lemma PlanNodeSlots(d: Definition)
    ensures NodeSlots(PlanNode(d)) == DefinitionSlots(d)
  {
    hide LeavesSlots;
    if d.LoopItem? {
      var max, w := d.loop.maxIterations, |d.loop.body|;
      PendingSlots(d.loop.body);
      if max > 0 { assert (max - 1) * w + w == max * w; }
    }
  }

  /** Without a prompter or a terminal no answer is ever read, so nothing is added. */
  lemma {:induction false} NonInteractiveAddsNothing(env: Env, c: Core)
    requires Sound(env, c) && !env.Interactive() && !c.control.Prompting?
    ensures Extras(env, c) == 0
    decreases |c.replies|, Rank(c.nodes), ControlRank(c.control)
  {
    hide Runnable, Propose;
    if !c.control.Halted? {
      ProposeLowers(env, c);
      NextIsPropose(env, c);
      NeverPrompts(env, c);
      NonInteractiveAddsNothing(env, Next(env, c));
    }
  }

  lemma NeverPrompts(env: Env, c: Core)
    requires Sound(env, c) && !env.Interactive() && !c.control.Prompting?
    ensures !Propose(env, c).core.control.Prompting?
  {
    hide UntilHolds, SelectMove, Runnable, AdvanceSlot;
    if c.control.Ready? {
      var move := SelectMove(env.blueprint, c.nodes);
      if move.RunSlot? {
        SlotSelected(env, c.nodes, move.at, move.step);
        hide ApplyLoopDecision;
        SlotNeverPrompts(env, c, move.at, move.step);
      }
    } else {
      hide ApplyMove;
    }
  }

  lemma SlotNeverPrompts(env: Env, c: Core, at: Target, step: StepDef)
    requires LeafAt(c.nodes, at) && RunnableLeaf(GetLeaf(c.nodes, at)) && !Terminal(GetLeaf(c.nodes, at).state)
    requires !env.Interactive()
    ensures !AdvanceSlot(env, c, at, step).core.control.Prompting?
  {
    hide SetLeaf, Gate;
    var leaf := GetLeaf(c.nodes, at);
    if leaf.state.Paused? {
      GateNeverPrompts(env, c, at, step);
    } else if leaf.state.Running? && c.replies != [] && !c.replies[0].Interrupt? {
      var c2 := c.(executed := c.executed + [ExecutionOf(c.nodes, at, step)], replies := c.replies[1..]);
      GateNeverPrompts(env, c2.(nodes := SetLeaf(c.nodes, at, RecordResult(leaf, c.replies[0].result))), at, step);
    }
  }

  lemma GateNeverPrompts(env: Env, c: Core, at: Target, step: StepDef)
    requires LeafAt(c.nodes, at) && !env.Interactive()
    ensures !Gate(env, c, at, step).core.control.Prompting?
  {
    hide SetLeaf;
  }

  /** A fresh run calls run_attempt at most once per step and max_iterations times per body step, plus once per retry
      answered and three bodies per grant; a non-interactive one never more than that. */
  lemma FreshRunBounded(env: Env, replies: seq<Reply>)
    requires Resolvable(env.blueprint)
    ensures var c := Loaded(PlanNodes(env.blueprint), replies);
            && Sound(env, c) && |Final(env, c).executed| <= BlueprintSlots(env.blueprint) + Extras(env, c)
            && (!env.Interactive() ==> |Final(env, c).executed| <= BlueprintSlots(env.blueprint))
  {
    hide Runnable, Final;
    var c := Loaded(PlanNodes(env.blueprint), replies);
    PlanLive(env);
    AtWorkSound(env, c, 0);
    PlanSlots(env.blueprint);
    CallsBounded(env, c, 0, BlueprintSlots(env.blueprint));
    if !env.Interactive() { NonInteractiveAddsNothing(env, c); }
  }

  // ---- one attempt per slot ----

  ghost predicate SingleAttempts(nodes: seq<Node>) {
    forall p: Place :: HasLeaf(nodes, p) ==> |LeafOf(nodes, p).attempts| <= 1
  }

  /** Without answers only a pending leaf begins an attempt, so none ever has two. */
  lemma NextSingle(env: Env, c: Core, k: nat)
    requires Resolvable(env.blueprint) && AtWork(env, c, k) && Sound(env, c)
    requires !env.Interactive() && !c.control.Prompting? && SingleAttempts(c.nodes)
    ensures SingleAttempts(Next(env, c).nodes)
  {
    hide Propose, LiveTree, BrokenTree, Runnable, SelectMove, Next, HasLeaf, LeafOf, AtWork, LeafGrows, LoopGrows;
    NextIsPropose(env, c);
    var change := ProposeChanges(env, c);
    if change.LeafChange? {
      assert HasLeaf(c.nodes, PlaceOf(c.nodes, change.at));
      SlotSingle(env, c, k, change.at, change.leaf);
    }
    hide Changed, Allowed;
    ChangedSingle(c.nodes, change);
  }

  lemma ChangedSingle(nodes: seq<Node>, change: Change)
    requires Allowed(nodes, change) && SingleAttempts(nodes)
    requires change.LeafChange? ==> |change.leaf.attempts| <= 1
    ensures SingleAttempts(Changed(nodes, change))
  {
    hide Allowed, Changed, HasLeaf, LeafOf;
    forall p: Place | HasLeaf(Changed(nodes, change), p)
      ensures |LeafOf(Changed(nodes, change), p).attempts| <= 1
    {
      ChangedLeaf(nodes, change, p);
    }
  }

  lemma SlotSingle(env: Env, c: Core, k: nat, at: Target, leaf: Leaf)
    requires Resolvable(env.blueprint) && AtWork(env, c, k) && Sound(env, c) && c.control.Ready?
    requires !env.Interactive() && LeafAt(c.nodes, at) && |GetLeaf(c.nodes, at).attempts| <= 1
    requires Allowed(c.nodes, LeafChange(at, leaf)) && Propose(env, c).core.nodes == SetLeaf(c.nodes, at, leaf)
    requires SelectMove(env.blueprint, c.nodes).RunSlot? && SelectMove(env.blueprint, c.nodes).at == at
    ensures |leaf.attempts| <= 1
  {
    hide LiveTree, Runnable, SelectMove, AtFrontier, SetLeaf, AdvanceSlot;
    var step := SelectMove(env.blueprint, c.nodes).step;
    SlotAtFrontier(env, c.nodes, k, at, step);
    FrontierLeaf(env, c.nodes, k, at, step);
    SlotSelected(env, c.nodes, at, step);
    SlotLeaves(env, c, at, step);
    KilledKeepsNodes(env, c, at, step);
    assert GetLeaf(SetLeaf(c.nodes, at, leaf), at) == leaf;
  }

  lemma KilledKeepsNodes(env: Env, c: Core, at: Target, step: StepDef)
    requires LeafAt(c.nodes, at) && RunnableLeaf(GetLeaf(c.nodes, at)) && !Terminal(GetLeaf(c.nodes, at).state)
    ensures AdvanceSlot(env, c, at, step).core.control == Halted(Killed) ==>
              AdvanceSlot(env, c, at, step).core.nodes == c.nodes
  {
    hide SetLeaf, Gate, Settle;
    GateAlive(env, c, at, step);
    if GetLeaf(c.nodes, at).state.Running? && c.replies != [] && !c.replies[0].Interrupt? {
      var c2 := c.(executed := c.executed + [ExecutionOf(c.nodes, at, step)], replies := c.replies[1..]);
      SettleAlive(env, c2, at, step, c.replies[0].result);
    }
  }

  /** A non-interactive run never attempts the same leaf twice. */
  lemma {:induction false} OneAttemptPerSlot(env: Env, c: Core, k: nat)
    requires Resolvable(env.blueprint) && AtWork(env, c, k) && Sound(env, c)
    requires !env.Interactive() && !c.control.Prompting? && SingleAttempts(c.nodes)
    ensures SingleAttempts(Final(env, c).nodes)
    decreases |c.replies|, Rank(c.nodes), ControlRank(c.control)
  {
    hide AtWork, Sound, Next, Propose, SingleAttempts;
    if !c.control.Halted? {
      NextSingle(env, c, k);
      NextIsPropose(env, c);
      NeverPrompts(env, c);
      ProposeLowers(env, c);
      var k1 := ProposeKeeps(env, c, k);
      OneAttemptPerSlot(env, Next(env, c), k1);
    }
  }

  // ---- how far a loop goes ----

  /** The ceiling prompt of the loop at this position is answered with a grant now. */
  predicate GrantsNow(env: Env, c: Core, pos: nat)
    requires Sound(env, c)
  {
    c.control.Ready? && env.Interactive() && c.replies != [] && c.replies[0].Reply? && c.replies[0].loop.AnswerGrant? &&
    var move := SelectMove(env.blueprint, c.nodes);
    move.LoopMove? && move.pos == pos && move.decision.PromptCeiling?
  }

  /** How many grants the loop at this position is answered with in the next n steps. */
  function Grants(env: Env, c: Core, pos: nat, n: nat): nat
    requires Sound(env, c)
    decreases n
  {
    if n == 0 then 0 else (if GrantsNow(env, c, pos) then 1 else 0) + Grants(env, Next(env, c), pos, n - 1)
  }

  /** The loop's ceiling, for what it can grow by. */
  predicate SameLoop(a: seq<Node>, b: seq<Node>, pos: nat, granted: nat) {
    && pos < |a| && pos < |b| && a[pos].LoopNode? && b[pos].LoopNode?
    && b[pos].maxIterations == a[pos].maxIterations && b[pos].granted == a[pos].granted + granted
  }

  lemma RecoveredLoop(nodes: seq<Node>, pos: nat)
    requires pos < |nodes| && nodes[pos].LoopNode?
    ensures SameLoop(nodes, Recover(nodes), pos, 0)
  {
  }

  lemma LeafKeepsLoop(nodes: seq<Node>, at: Target, leaf: Leaf, pos: nat)
    requires LeafAt(nodes, at) && pos < |nodes| && nodes[pos].LoopNode?
    ensures SameLoop(nodes, SetLeaf(nodes, at, leaf), pos, 0)
  {
  }

  lemma DecisionGrants(env: Env, c: Core, at: nat, body: seq<StepDef>, decision: LoopDecision, pos: nat)
    requires LoopAt(c.nodes, at) && !decision.AdvanceBodyStep? && pos < |c.nodes| && c.nodes[pos].LoopNode?
    ensures var grants := pos == at && decision.PromptCeiling? && env.Interactive() && c.replies != []
                          && c.replies[0].Reply? && c.replies[0].loop.AnswerGrant?;
            SameLoop(c.nodes, ApplyLoopDecision(env, c, at, body, decision).core.nodes, pos,
                     if grants then 3 else 0)
  {
    hide UntilHolds;
  }

  lemma NextGrants(env: Env, c: Core, pos: nat)
    requires Sound(env, c) && pos < |c.nodes| && c.nodes[pos].LoopNode?
    ensures SameLoop(c.nodes, Next(env, c).nodes, pos, if GrantsNow(env, c, pos) then 3 else 0)
  {
    hide Runnable, SelectMove;
    match c.control
    case Halted(_) => hide ApplyMove;
    case Starting =>
      hide ApplyMove;
      RecoveredLoop(c.nodes, pos);
    case FailingLoop(_) => hide ApplyMove;
    case Prompting(at) => PromptKeepsLoop(env, c, at, pos);
    case Ready => MoveGrants(env, c, pos);
  }

  lemma PromptKeepsLoop(env: Env, c: Core, at: Target, pos: nat)
    requires Sound(env, c) && c.control == Prompting(at) && pos < |c.nodes| && c.nodes[pos].LoopNode?
    ensures SameLoop(c.nodes, Next(env, c).nodes, pos, 0)
  {
    hide Runnable, ApplyMove;
    if c.replies != [] && c.replies[0].Reply? {
      var (action, recorded) := ApplyPromptDecision(c.replies[0].step,
                                                    Last(GetLeaf(c.nodes, at).attempts).result.value);
      ActionEffect(c.(replies := c.replies[1..]), at, action, recorded, Some(RunRunning));
      LeafKeepsLoop(c.nodes, at, GetLeaf(Propose(env, c).core.nodes, at), pos);
      hide ApplyAction, SetLeaf;
    }
  }

  lemma SlotKeepsLoop(env: Env, c: Core, at: Target, step: StepDef, pos: nat)
    requires LeafAt(c.nodes, at) && RunnableLeaf(GetLeaf(c.nodes, at)) && !Terminal(GetLeaf(c.nodes, at).state)
    requires pos < |c.nodes| && c.nodes[pos].LoopNode?
    ensures SameLoop(c.nodes, AdvanceSlot(env, c, at, step).core.nodes, pos, 0)
  {
    hide AdvanceSlot, SetLeaf, LeafGrows;
    SlotEffect(env, c, at, step);
    if LeafEffect(c.nodes, at, AdvanceSlot(env, c, at, step)) {
      LeafKeepsLoop(c.nodes, at, GetLeaf(AdvanceSlot(env, c, at, step).core.nodes, at), pos);
    }
  }

  lemma MoveGrants(env: Env, c: Core, pos: nat)
    requires Sound(env, c) && c.control.Ready? && pos < |c.nodes| && c.nodes[pos].LoopNode?
    ensures SameLoop(c.nodes, Next(env, c).nodes, pos, if GrantsNow(env, c, pos) then 3 else 0)
  {
    var move := SelectMove(env.blueprint, c.nodes);
    if move.RunSlot? {
      SlotSelected(env, c.nodes, move.at, move.step);
      NextIsSlot(env, c, move.at, move.step);
      hide Runnable, SelectMove, AdvanceSlot, Next;
      SlotKeepsLoop(env, c, move.at, move.step, pos);
    } else if move.LoopMove? {
      LoopMoveFits(env, c.nodes, move);
      hide Runnable, SelectMove, AdvanceSlot, ApplyLoopDecision;
      DecisionGrants(env, c, move.pos, move.body, move.decision, pos);
    } else {
      hide Runnable, AdvanceSlot, ApplyLoopDecision;
      if move.OpenLoop? { assert LoopAt(c.nodes, move.pos); }
    }
  }

  /** A loop's ceiling grows by three for every grant its prompt is answered with, and by nothing else. */
  lemma {:induction false} GrantsAreAnswered(env: Env, c: Core, pos: nat, n: nat)
    requires Sound(env, c) && pos < |c.nodes| && c.nodes[pos].LoopNode?
    ensures SameLoop(c.nodes, Steps(env, c, n).nodes, pos, 3 * Grants(env, c, pos, n))
    decreases n
  {
    hide Next, Runnable, GrantsNow;
    if n > 0 {
      NextGrants(env, c, pos);
      GrantsAreAnswered(env, Next(env, c), pos, n - 1);
    }
  }

  /** A loop of a fresh run has run at most its own iterations and three for each grant, and at least begun one. */
  lemma IterationsBounded(env: Env, replies: seq<Reply>, pos: nat, n: nat)
    requires Resolvable(env.blueprint) && pos < |env.blueprint| && env.blueprint[pos].LoopItem?
    ensures Sound(env, Loaded(PlanNodes(env.blueprint), replies))
    ensures var c := Loaded(PlanNodes(env.blueprint), replies); var nodes := Steps(env, c, n).nodes;
            var ceiling := env.blueprint[pos].loop.maxIterations + 3 * Grants(env, c, pos, n);
            && pos < |nodes| && nodes[pos].LoopNode? && IterationCeiling(nodes[pos]) == ceiling
            && |nodes[pos].iterations| <= if ceiling > 1 then ceiling else 1
  {
    hide Next, Runnable, AtWork, LiveTree, BrokenTree, GrantsNow, Steps;
    var c := Loaded(PlanNodes(env.blueprint), replies);
    PlanLive(env);
    LoadedAtWork(env, PlanNodes(env.blueprint), replies, 0);
    AtWorkSound(env, c, 0);
    assert c.nodes[pos] == PlanNode(env.blueprint[pos]);
    GrantsAreAnswered(env, c, pos, n);
    var k := StepsKeep(env, c, 0, n);
    AtWorkCommits(env, Steps(env, c, n), k);
    LoopsWellFormed(env, Steps(env, c, n).nodes, k, pos);
  }
}
