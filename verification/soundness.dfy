/** Every proposal leaves a tree the coordinator can keep driving, and moves a well-founded measure down:
    the two facts that let the coordinator's loops be run at all. */
module Soundness {
  import opened StateModels
  import opened FailureRules
  import opened LoopPolicy
  import opened Transitions
  import opened Rows

  // ---- Sound is preserved ----

  lemma LookupHasId(defs: seq<Definition>, id: string)
    ensures Lookup(defs, id).Some? ==> DefinitionId(Lookup(defs, id).value) == id
  {
  }

  lemma RunnableSetLeaf(defs: seq<Definition>, nodes: seq<Node>, at: Target, leaf: Leaf)
    requires Runnable(defs, nodes) && LeafAt(nodes, at) && RunnableLeaf(leaf)
    ensures Runnable(defs, SetLeaf(nodes, at, leaf))
  {
    assert RunnableNode(defs, nodes[at.pos]);
    if at.Body? {
      var n := SetLeaf(nodes, at, leaf)[at.pos];
      var steps := Last(nodes[at.pos].iterations).steps;
      assert Last(n.iterations).steps == steps[at.index := leaf];
      assert RunnableNode(defs, n);
    }
  }

  lemma RunnableRecover(defs: seq<Definition>, nodes: seq<Node>)
    requires Runnable(defs, nodes)
    ensures Runnable(defs, Recover(nodes))
  {
    forall i | 0 <= i < |nodes|
      ensures RunnableNode(defs, Recover(nodes)[i])
    {
      assert RunnableNode(defs, nodes[i]);
      if nodes[i].LoopNode? {
        assert Last(Recover(nodes)[i].iterations) == RecoverIteration(Last(nodes[i].iterations));
      }
    }
  }

  predicate SoundAfter(env: Env, e: Effect) {
    Sound(env, e.core) && Sound(env, e.core.(control := e.refused))
  }

  lemma ApplyActionSound(env: Env, c: Core, at: Target, action: StepAction, result: StepResult,
                         status: Option<RunStatus>)
    requires Runnable(env.blueprint, c.nodes) && LeafAt(c.nodes, at) && GetLeaf(c.nodes, at).attempts != []
    ensures SoundAfter(env, ApplyAction(c, at, action, result, status))
  {
    var e := ApplyAction(c, at, action, result, status);
    RunnableSetLeaf(env.blueprint, c.nodes, at, GetLeaf(e.core.nodes, at));
  }

  lemma GateSound(env: Env, c: Core, at: Target, step: StepDef)
    requires Runnable(env.blueprint, c.nodes) && LeafAt(c.nodes, at)
    ensures SoundAfter(env, Gate(env, c, at, step))
  {
    var leaf := GetLeaf(c.nodes, at);
    RunnableSetLeaf(env.blueprint, c.nodes, at, leaf.(state := Paused));
    RunnableSetLeaf(env.blueprint, c.nodes, at, leaf.(state := Failed));
    if leaf.attempts != [] && Last(leaf.attempts).result.Some? {
      var policy := EffectivePolicy(step.onFailure);
      var (action, recorded) := ResolveTerminalAction(policy, Last(leaf.attempts).result.value);
      ApplyActionSound(env, c, at, action, recorded, None);
    }
  }

  lemma SettleSound(env: Env, c: Core, at: Target, step: StepDef, result: StepResult)
    requires Runnable(env.blueprint, c.nodes) && LeafAt(c.nodes, at) && GetLeaf(c.nodes, at).attempts != []
    ensures SoundAfter(env, Settle(env, c, at, step, result))
  {
    hide Gate, Runnable;
    var c1 := c.(nodes := SetLeaf(c.nodes, at, RecordResult(GetLeaf(c.nodes, at), result)));
    RunnableSetLeaf(env.blueprint, c.nodes, at, RecordResult(GetLeaf(c.nodes, at), result));
    if result.Ok() {
      var e := Settle(env, c, at, step, result);
      RunnableSetLeaf(env.blueprint, c1.nodes, at, GetLeaf(e.core.nodes, at));
    } else {
      GateSound(env, c1, at, step);
    }
  }

  lemma RunAttemptSound(env: Env, c: Core, at: Target, step: StepDef)
    requires Runnable(env.blueprint, c.nodes) && LeafAt(c.nodes, at) && GetLeaf(c.nodes, at).attempts != []
    ensures SoundAfter(env, RunAttempt(env, c, at, step))
  {
    hide Settle, Runnable, ExecutionOf, SetLeaf;
    RunnableSetLeaf(env.blueprint, c.nodes, at, GetLeaf(c.nodes, at).(state := Cancelled));
    if c.replies != [] && !c.replies[0].Interrupt? {
      var c2 := c.(executed := c.executed + [ExecutionOf(c.nodes, at, step)], replies := c.replies[1..]);
      SettleSound(env, c2, at, step, c.replies[0].result);
    }
  }

  /** A loop whose iterations change but whose last one keeps its runnable leaves stays runnable. */
  lemma LoopEffectSound(env: Env, c: Core, pos: nat, n: Node)
    requires Runnable(env.blueprint, c.nodes) && LoopAt(c.nodes, pos)
    requires n.LoopNode? && n.id == c.nodes[pos].id && n.iterations != []
    requires Last(n.iterations).steps == Last(c.nodes[pos].iterations).steps
    ensures Runnable(env.blueprint, c.nodes[pos := n])
  {
    assert RunnableNode(env.blueprint, c.nodes[pos]);
    assert RunnableNode(env.blueprint, n);
  }

  lemma FinishSound(env: Env, c: Core, pos: nat, failed: bool, error: bool)
    requires Runnable(env.blueprint, c.nodes) && LoopAt(c.nodes, pos)
    ensures SoundAfter(env, FinishLoop(c, pos, failed, error))
  {
    hide Runnable;
    LoopEffectSound(env, c, pos, FinishLoop(c, pos, failed, error).core.nodes[pos]);
  }

  lemma CloseSound(env: Env, c: Core, pos: nat)
    requires Runnable(env.blueprint, c.nodes) && LoopAt(c.nodes, pos)
    ensures SoundAfter(env, CloseIteration(env, c, pos))
  {
    hide Runnable, UntilHolds;
    LoopEffectSound(env, c, pos, CloseIteration(env, c, pos).core.nodes[pos]);
  }

  lemma RepeatSound(env: Env, c: Core, pos: nat, body: seq<StepDef>, number: nat)
    requires Runnable(env.blueprint, c.nodes) && LoopAt(c.nodes, pos)
    requires FindsBody(env.blueprint, c.nodes[pos].id, body)
    ensures SoundAfter(env, RepeatIteration(c, pos, body, number))
  {
    var n := RepeatIteration(c, pos, body, number).core.nodes[pos];
    assert Last(n.iterations).steps == PendingLeaves(body);
    assert RunnableNode(env.blueprint, n);
  }

  lemma CeilingSound(env: Env, c: Core, pos: nat)
    requires Runnable(env.blueprint, c.nodes) && LoopAt(c.nodes, pos)
    ensures SoundAfter(env, ResolveCeiling(env, c, pos))
  {
    hide Runnable, FinishLoop;
    FinishSound(env, c, pos, true, true);
    if env.Interactive() && c.replies != [] {
      var c1 := c.(replies := c.replies[1..]);
      FinishSound(env, c1, pos, true, true);
      FinishSound(env, c1, pos, false, false);
      LoopEffectSound(env, c1, pos, CancelLoop(c1, pos).core.nodes[pos]);
      LoopEffectSound(env, c1, pos, GrantIterations(c1, pos).core.nodes[pos]);
    }
  }

  lemma LoopDecisionSound(env: Env, c: Core, pos: nat, body: seq<StepDef>, decision: LoopDecision)
    requires Runnable(env.blueprint, c.nodes) && LoopAt(c.nodes, pos) && !decision.AdvanceBodyStep?
    requires FindsBody(env.blueprint, c.nodes[pos].id, body)
    ensures SoundAfter(env, ApplyLoopDecision(env, c, pos, body, decision))
  {
    hide SoundAfter, Runnable, FindsBody, FinishLoop, CloseIteration, RepeatIteration, ResolveCeiling;
    match decision
    case CompleteIteration => CloseSound(env, c, pos);
    case RepeatNextIteration(number) => RepeatSound(env, c, pos, body, number);
    case TerminateLoopPassed => FinishSound(env, c, pos, false, false);
    case TerminateLoopCeiling =>
      var failed := c.nodes[pos].onMaxIterations.Abort?;
      FinishSound(env, c, pos, failed, failed);
    case PromptCeiling => CeilingSound(env, c, pos);
  }

  /** Whatever is proposed can be driven further, whether or not its commit is accepted. */
  lemma ProposeSound(env: Env, c: Core)
    requires Sound(env, c)
    ensures SoundAfter(env, Propose(env, c))
  {
    match c.control
    case Halted(_) =>
    case Starting => RunnableRecover(env.blueprint, c.nodes);
    case Prompting(at) =>
      if c.replies != [] && !c.replies[0].Interrupt? {
        var leaf := GetLeaf(c.nodes, at);
        var (action, recorded) :=
          ApplyPromptDecision(c.replies[0].step, Last(leaf.attempts).result.value);
        ApplyActionSound(env, c.(replies := c.replies[1..]), at, action, recorded, Some(RunRunning));
      }
    case FailingLoop(pos) =>
      FinishSound(env, c, pos, true, false);
    case Ready => MoveSound(env, c);
  }

  lemma SlotSound(env: Env, c: Core, at: Target, step: StepDef)
    requires Runnable(env.blueprint, c.nodes) && LeafAt(c.nodes, at) && RunnableLeaf(GetLeaf(c.nodes, at))
    requires !Terminal(GetLeaf(c.nodes, at).state)
    ensures SoundAfter(env, AdvanceSlot(env, c, at, step))
  {
    hide Gate, RunAttempt, Runnable, SetLeaf;
    var leaf := GetLeaf(c.nodes, at);
    if leaf.state.Paused? {
      GateSound(env, c, at, step);
    } else if leaf.state.Pending? {
      RunnableSetLeaf(env.blueprint, c.nodes, at, GetLeaf(BeginAttempt(c, at, 1, None).core.nodes, at));
    } else {
      RunAttemptSound(env, c, at, step);
    }
  }

  lemma MoveSound(env: Env, c: Core)
    requires Runnable(env.blueprint, c.nodes)
    ensures SoundAfter(env, ApplyMove(env, c))
  {
    hide AdvanceSlot, ApplyLoopDecision;
    match SelectMove(env.blueprint, c.nodes)
    case AllTerminal =>
    case NoDefinition =>
    case RunSlot(at, step) =>
      SlotSelected(env, c.nodes, at, step);
      SlotSound(env, c, at, step);
    case OpenLoop(pos) => LoopEffectSound(env, c, pos, OpenIteration(c, pos).core.nodes[pos]);
    case LoopMove(pos, body, decision) => LoopDecisionSound(env, c, pos, body, decision);
  }

  lemma TickSound(env: Env, m: Machine)
    requires Sound(env, m.core)
    ensures Sound(env, Tick(env, m).core)
  {
    ProposeSound(env, m.core);
  }

  // ---- a measure every tick lowers ----

  function LeafRank(leaf: Leaf): nat {
    if leaf.state.Pending? then 2 else if Terminal(leaf.state) then 0 else 1
  }

  function LeavesRank(leaves: seq<Leaf>): nat {
    if leaves == [] then 0 else LeavesRank(leaves[..|leaves| - 1]) + LeafRank(Last(leaves))
  }

  function NodeRank(n: Node): nat {
    match n
    case StepNode(leaf) => LeafRank(leaf)
    case LoopNode(_, max, _, _, state, its, granted) =>
      if Terminal(state) || its == [] then 0
      else
        var it := Last(its);
        var remaining := if max + granted > it.number then max + granted - it.number else 0;
        1 + (if state.Pending? then 1 else 0) + remaining * (2 * |it.steps| + 3)
        + LeavesRank(it.steps) + (if it.untilPassed.None? then 1 else 0)
  }

  function Rank(nodes: seq<Node>): nat {
    if nodes == [] then 0 else Rank(nodes[..|nodes| - 1]) + NodeRank(Last(nodes))
  }

  function ControlRank(control: Control): nat {
    match control
    case Starting => 3
    case Ready => 2
    case Prompting(_) => 1
    case FailingLoop(_) => 1
    case Halted(_) => 0
  }

  predicate Below(a: Core, b: Core) {
    || |a.replies| < |b.replies|
    || (|a.replies| == |b.replies| && Rank(a.nodes) < Rank(b.nodes))
    || (|a.replies| == |b.replies| && Rank(a.nodes) == Rank(b.nodes) && ControlRank(a.control) < ControlRank(b.control))
  }

  lemma {:induction false} LeavesRankUpdate(leaves: seq<Leaf>, i: nat, leaf: Leaf)
    requires i < |leaves|
    ensures LeavesRank(leaves[i := leaf]) == LeavesRank(leaves) - LeafRank(leaves[i]) + LeafRank(leaf)
  {
    var n := |leaves| - 1;
    if i == n {
      assert leaves[i := leaf][..n] == leaves[..n];
    } else {
      assert leaves[i := leaf][..n] == leaves[..n][i := leaf];
      LeavesRankUpdate(leaves[..n], i, leaf);
    }
  }

  lemma {:induction false} RankUpdate(nodes: seq<Node>, i: nat, n: Node)
    requires i < |nodes|
    ensures Rank(nodes[i := n]) == Rank(nodes) - NodeRank(nodes[i]) + NodeRank(n)
  {
    var k := |nodes| - 1;
    if i == k {
      assert nodes[i := n][..k] == nodes[..k];
    } else {
      assert nodes[i := n][..k] == nodes[..k][i := n];
      RankUpdate(nodes[..k], i, n);
    }
  }

  lemma {:induction false} PendingRank(steps: seq<StepDef>)
    ensures LeavesRank(PendingLeaves(steps)) == 2 * |steps|
  {
    if steps != [] {
      assert PendingLeaves(steps)[..|steps| - 1] == PendingLeaves(steps[..|steps| - 1]);
      PendingRank(steps[..|steps| - 1]);
    }
  }

  lemma SetLeafNodeRank(nodes: seq<Node>, at: Target, leaf: Leaf)
    requires LeafAt(nodes, at)
    requires at.Body? ==> !Terminal(nodes[at.pos].state)
    ensures NodeRank(SetLeaf(nodes, at, leaf)[at.pos])
         == NodeRank(nodes[at.pos]) - LeafRank(GetLeaf(nodes, at)) + LeafRank(leaf)
  {
    hide LeavesRank, LeafRank;
    if at.Body? {
      var it := Last(nodes[at.pos].iterations);
      assert Last(SetLeaf(nodes, at, leaf)[at.pos].iterations) == it.(steps := it.steps[at.index := leaf]);
      LeavesRankUpdate(it.steps, at.index, leaf);
    }
  }

  lemma SetLeafRank(nodes: seq<Node>, at: Target, leaf: Leaf)
    requires LeafAt(nodes, at)
    requires at.Body? ==> !Terminal(nodes[at.pos].state)
    ensures Rank(SetLeaf(nodes, at, leaf)) == Rank(nodes) - LeafRank(GetLeaf(nodes, at)) + LeafRank(leaf)
  {
    hide Rank, NodeRank, LeafRank;
    var n := SetLeaf(nodes, at, leaf)[at.pos];
    assert SetLeaf(nodes, at, leaf) == nodes[at.pos := n];
    RankUpdate(nodes, at.pos, n);
    SetLeafNodeRank(nodes, at, leaf);
  }

  lemma {:induction false} RecoverLeavesRank(leaves: seq<Leaf>)
    ensures LeavesRank(RecoverLeaves(leaves)) == LeavesRank(leaves)
  {
    if leaves != [] {
      assert RecoverLeaves(leaves)[..|leaves| - 1] == RecoverLeaves(leaves[..|leaves| - 1]);
      RecoverLeavesRank(leaves[..|leaves| - 1]);
    }
  }

  lemma RecoverNodeRank(n: Node)
    ensures NodeRank(RecoverNode(n)) == NodeRank(n)
  {
    hide LeavesRank, RecoverLeaves, RecoverIterations;
    if n.LoopNode? && n.iterations != [] {
      assert Last(RecoverIterations(n.iterations)) == RecoverIteration(Last(n.iterations));
      RecoverLeavesRank(Last(n.iterations).steps);
    }
  }

  lemma {:induction false} RecoverRank(nodes: seq<Node>)
    ensures Rank(Recover(nodes)) == Rank(nodes)
  {
    hide NodeRank, RecoverNode;
    if nodes != [] {
      assert Recover(nodes)[..|nodes| - 1] == Recover(nodes[..|nodes| - 1]);
      RecoverRank(nodes[..|nodes| - 1]);
      RecoverNodeRank(Last(nodes));
    }
  }

  /** Both continuations of a proposal are below the core it was made from. */
  predicate Lowers(e: Effect, c: Core) {
    Below(e.core, c) && (e.commit ==> Below(e.core.(control := e.refused), c))
  }

  lemma GateReplies(env: Env, c: Core, at: Target, step: StepDef)
    requires LeafAt(c.nodes, at)
    ensures Gate(env, c, at, step).core.replies == c.replies && Gate(env, c, at, step).core.executed == c.executed
  {
    hide SetLeaf;
  }

  lemma SettleReplies(env: Env, c: Core, at: Target, step: StepDef, result: StepResult)
    requires LeafAt(c.nodes, at) && GetLeaf(c.nodes, at).attempts != []
    ensures Settle(env, c, at, step, result).core.replies == c.replies
  {
    hide SetLeaf, Gate;
    GateReplies(env, c.(nodes := SetLeaf(c.nodes, at, RecordResult(GetLeaf(c.nodes, at), result))), at, step);
  }

  /** A running leaf's move asks the outside world, or dies asking. */
  lemma RunAttemptLowers(env: Env, c: Core, at: Target, step: StepDef)
    requires LeafAt(c.nodes, at) && GetLeaf(c.nodes, at).attempts != [] && c.control.Ready?
    ensures Lowers(RunAttempt(env, c, at, step), c)
  {
    hide Settle, SetLeaf, Rank, ExecutionOf;
    if c.replies != [] && !c.replies[0].Interrupt? {
      var c2 := c.(executed := c.executed + [ExecutionOf(c.nodes, at, step)], replies := c.replies[1..]);
      SettleReplies(env, c2, at, step, c.replies[0].result);
    }
  }

  /** A change to a leaf the coordinator is at, consuming no reply, lowers the measure when it lowers the
      leaf's rank, or keeps it and leaves Ready. */
  lemma LeafChangeLowers(env: Env, c: Core, at: Target, leaf: Leaf, e: Effect)
    requires LeafAt(c.nodes, at) && c.control.Ready? && (at.Body? ==> !Terminal(c.nodes[at.pos].state))
    requires e.core.replies == c.replies && e.core.nodes == SetLeaf(c.nodes, at, leaf)
    requires LeafRank(leaf) <= LeafRank(GetLeaf(c.nodes, at))
    requires !e.refused.Ready? && !e.refused.Starting?
    requires LeafRank(leaf) < LeafRank(GetLeaf(c.nodes, at)) || e.core.control.Prompting?
    ensures Lowers(e, c)
  {
    SetLeafRank(c.nodes, at, leaf);
  }

  lemma FailLowers(env: Env, c: Core, at: Target, status: Option<RunStatus>)
    requires LeafAt(c.nodes, at) && c.control.Ready? && (at.Body? ==> !Terminal(c.nodes[at.pos].state))
    requires GetLeaf(c.nodes, at).state.Paused?
    ensures Lowers(FailLeaf(c, at, status), c)
  {
    hide Lowers, SetLeaf;
    LeafChangeLowers(env, c, at, GetLeaf(c.nodes, at).(state := Failed), FailLeaf(c, at, status));
  }

  lemma SettleLowers(env: Env, c: Core, at: Target, state: NodeState, result: StepResult, status: Option<RunStatus>)
    requires LeafAt(c.nodes, at) && c.control.Ready? && (at.Body? ==> !Terminal(c.nodes[at.pos].state))
    requires GetLeaf(c.nodes, at).state.Paused? && GetLeaf(c.nodes, at).attempts != [] && Terminal(state)
    ensures Lowers(SettleLeaf(c, at, state, result, status), c)
  {
    hide Lowers, SetLeaf;
    var leaf := GetLeaf(c.nodes, at);
    var attempts := WithLast(leaf.attempts, Last(leaf.attempts).(result := Some(result)));
    LeafChangeLowers(env, c, at, leaf.(attempts := attempts, state := state),
                     SettleLeaf(c, at, state, result, status));
  }

  lemma GateLowers(env: Env, c: Core, at: Target, step: StepDef)
    requires LeafAt(c.nodes, at) && c.control.Ready? && (at.Body? ==> !Terminal(c.nodes[at.pos].state))
    requires GetLeaf(c.nodes, at).state.Paused?
    ensures Lowers(Gate(env, c, at, step), c)
  {
    hide SetLeaf, Rank, FailLeaf, SettleLeaf;
    var leaf := GetLeaf(c.nodes, at);
    FailLowers(env, c, at, None);
    if leaf.attempts != [] && Last(leaf.attempts).result.Some? {
      var result := Last(leaf.attempts).result.value;
      if GoesOn(step.onFailure) {
        SettleLowers(env, c, at, Ignored, MarkContinued(result), None);
      } else if Asks(step.onFailure) && env.Interactive() {
        LeafChangeLowers(env, c, at, leaf.(state := Paused), Gate(env, c, at, step));
      }
    }
  }

  lemma SlotLowers(env: Env, c: Core, at: Target, step: StepDef)
    requires Runnable(env.blueprint, c.nodes) && c.control.Ready?
    requires SelectMove(env.blueprint, c.nodes) == RunSlot(at, step)
    ensures LeafAt(c.nodes, at) && RunnableLeaf(GetLeaf(c.nodes, at)) && !Terminal(GetLeaf(c.nodes, at).state)
    ensures Lowers(AdvanceSlot(env, c, at, step), c)
  {
    assert RunnableNode(env.blueprint, c.nodes[at.pos]);
    var leaf := GetLeaf(c.nodes, at);
    if leaf.state.Paused? {
      GateLowers(env, c, at, step);
    } else if leaf.state.Pending? {
      var e := BeginAttempt(c, at, 1, None);
      LeafChangeLowers(env, c, at, GetLeaf(e.core.nodes, at), e);
    } else {
      RunAttemptLowers(env, c, at, step);
    }
  }

  lemma RepeatLowers(env: Env, c: Core, pos: nat, body: seq<StepDef>)
    requires Runnable(env.blueprint, c.nodes) && LoopAt(c.nodes, pos) && !Terminal(c.nodes[pos].state)
    requires FindsBody(env.blueprint, c.nodes[pos].id, body)
    requires c.nodes[pos].state != Pending
    requires Last(c.nodes[pos].iterations).number < IterationCeiling(c.nodes[pos])
    ensures Rank(RepeatIteration(c, pos, body, Last(c.nodes[pos].iterations).number + 1).core.nodes) < Rank(c.nodes)
  {
    var number := Last(c.nodes[pos].iterations).number + 1;
    var n := RepeatIteration(c, pos, body, number).core.nodes[pos];
    RankUpdate(c.nodes, pos, n);
    PendingRank(body);
    assert RunnableNode(env.blueprint, c.nodes[pos]);
    assert |body| == |Last(c.nodes[pos].iterations).steps|;
    var width := 2 * |body| + 3;
    var remaining := IterationCeiling(c.nodes[pos]) - number;
    assert (remaining + 1) * width == remaining * width + width;
  }

  /** A change to a live loop, consuming no reply, that keeps its body leaves and numbering. */
  lemma LoopChangeLowers(env: Env, c: Core, pos: nat, n: Node, e: Effect)
    requires LoopAt(c.nodes, pos) && c.control.Ready?
    requires e.core.replies == c.replies && e.core.nodes == c.nodes[pos := n]
    requires NodeRank(n) < NodeRank(c.nodes[pos])
    requires !e.refused.Ready? && !e.refused.Starting?
    ensures Lowers(e, c)
  {
    RankUpdate(c.nodes, pos, n);
  }

  lemma FinishLowers(env: Env, c: Core, pos: nat, failed: bool, error: bool)
    requires LoopAt(c.nodes, pos) && c.control.Ready? && !Terminal(c.nodes[pos].state)
    ensures Lowers(FinishLoop(c, pos, failed, error), c)
  {
    var e := FinishLoop(c, pos, failed, error);
    LoopChangeLowers(env, c, pos, e.core.nodes[pos], e);
  }

  lemma CloseLowers(env: Env, c: Core, pos: nat)
    requires LoopAt(c.nodes, pos) && c.control.Ready? && !Terminal(c.nodes[pos].state)
    requires Last(c.nodes[pos].iterations).untilPassed.None?
    ensures Lowers(CloseIteration(env, c, pos), c)
  {
    var e := CloseIteration(env, c, pos);
    LoopChangeLowers(env, c, pos, e.core.nodes[pos], e);
  }

  lemma CeilingLowers(env: Env, c: Core, pos: nat)
    requires LoopAt(c.nodes, pos) && c.control.Ready? && !Terminal(c.nodes[pos].state)
    ensures Lowers(ResolveCeiling(env, c, pos), c)
  {
    if !env.Interactive() {
      FinishLowers(env, c, pos, true, true);
    } else if c.replies != [] {
      assert ResolveCeiling(env, c, pos).core.replies == c.replies[1..];
    }
  }

  lemma LoopMoveLowers(env: Env, c: Core, pos: nat, body: seq<StepDef>, decision: LoopDecision)
    requires Runnable(env.blueprint, c.nodes) && c.control.Ready?
    requires SelectMove(env.blueprint, c.nodes) == LoopMove(pos, body, decision)
    ensures !decision.AdvanceBodyStep? && LoopAt(c.nodes, pos)
    ensures Lowers(ApplyLoopDecision(env, c, pos, body, decision), c)
  {
    assert RunnableNode(env.blueprint, c.nodes[pos]);
    assert decision == Decide(c.nodes[pos], body);
    hide Rank, FinishLoop, CloseIteration, ResolveCeiling;
    match decision
    case CompleteIteration => CloseLowers(env, c, pos);
    case RepeatNextIteration(number) => RepeatLowers(env, c, pos, body);
    case TerminateLoopPassed => FinishLowers(env, c, pos, false, false);
    case TerminateLoopCeiling =>
      var failed := c.nodes[pos].onMaxIterations.Abort?;
      FinishLowers(env, c, pos, failed, failed);
    case PromptCeiling => CeilingLowers(env, c, pos);
  }

  lemma OpenLowers(env: Env, c: Core, pos: nat)
    requires LoopAt(c.nodes, pos) && c.control.Ready? && c.nodes[pos].state.Pending?
    ensures Lowers(OpenIteration(c, pos), c)
  {
    var e := OpenIteration(c, pos);
    LoopChangeLowers(env, c, pos, e.core.nodes[pos], e);
  }

  lemma PromptLowers(env: Env, c: Core, at: Target)
    requires ControlFits(c) && c.control == Prompting(at)
    ensures Lowers(AnswerPrompt(env, c, at), c)
  {
    if c.replies != [] {
      assert AnswerPrompt(env, c, at).core.replies == c.replies[1..];
    }
  }

  lemma FailingLoopLowers(env: Env, c: Core, pos: nat)
    requires LoopAt(c.nodes, pos) && c.control == FailingLoop(pos)
    ensures Lowers(FinishLoop(c, pos, true, false), c)
  {
    var n := FinishLoop(c, pos, true, false).core.nodes[pos];
    RankUpdate(c.nodes, pos, n);
  }

  lemma MoveLowers(env: Env, c: Core)
    requires Sound(env, c) && c.control.Ready?
    ensures Lowers(ApplyMove(env, c), c)
  {
    match SelectMove(env.blueprint, c.nodes)
    case AllTerminal =>
    case NoDefinition =>
    case RunSlot(at, step) => SlotLowers(env, c, at, step);
    case OpenLoop(pos) => OpenLowers(env, c, pos);
    case LoopMove(pos, body, decision) => LoopMoveLowers(env, c, pos, body, decision);
  }

  /** Every proposal of a coordinator that has not halted lowers the measure. */
  lemma ProposeLowers(env: Env, c: Core)
    requires Sound(env, c) && !c.control.Halted?
    ensures Lowers(Propose(env, c), c)
  {
    match c.control
    case Starting => RecoverRank(c.nodes);
    case Prompting(at) => PromptLowers(env, c, at);
    case FailingLoop(pos) => FailingLoopLowers(env, c, pos);
    case Ready => MoveLowers(env, c);
  }

  lemma TickLowers(env: Env, m: Machine)
    requires Sound(env, m.core) && !m.core.control.Halted?
    ensures Below(Tick(env, m).core, m.core)
  {
    ProposeLowers(env, m.core);
  }

  // ---- whole runs ----

  /** n ticks of a machine. */
  function Ticks(env: Env, m: Machine, n: nat): (r: Machine)
    requires Sound(env, m.core)
    ensures Sound(env, r.core)
    decreases n
  {
    TickSound(env, m);
    if n == 0 then m else Ticks(env, Tick(env, m), n - 1)
  }

  /** b is reached from a by ticking. */
  ghost predicate Reaches(env: Env, a: Machine, b: Machine) {
    Sound(env, a.core) && exists n: nat :: Ticks(env, a, n) == b
  }

  /** The whole run: ticks until the coordinator halts. */
  function RunToHalt(env: Env, m: Machine): (r: Machine)
    requires Sound(env, m.core)
    ensures Sound(env, r.core) && r.core.control.Halted?
    decreases |m.core.replies|, Rank(m.core.nodes), ControlRank(m.core.control)
  {
    TickSound(env, m);
    if m.core.control.Halted? then m
    else
      TickLowers(env, m);
      RunToHalt(env, Tick(env, m))
  }

  lemma {:induction false} TicksPlus(env: Env, m: Machine, i: nat, j: nat)
    requires Sound(env, m.core)
    ensures Ticks(env, Ticks(env, m, i), j) == Ticks(env, m, i + j)
    decreases i
  {
    hide Tick, Runnable;
    if i > 0 {
      TickSound(env, m);
      TicksPlus(env, Tick(env, m), i - 1, j);
    }
  }

  lemma ReachesTrans(env: Env, a: Machine, b: Machine, c: Machine)
    requires Reaches(env, a, b) && Reaches(env, b, c)
    ensures Reaches(env, a, c)
  {
    var i: nat :| Ticks(env, a, i) == b;
    var j: nat :| Ticks(env, b, j) == c;
    TicksPlus(env, a, i, j);
  }

  lemma ReachesTick(env: Env, m: Machine)
    requires Sound(env, m.core)
    ensures Reaches(env, m, m) && Reaches(env, m, Tick(env, m))
  {
    TickSound(env, m);
    assert Ticks(env, m, 0) == m;
    assert Ticks(env, Tick(env, m), 0) == Tick(env, m);
    assert Ticks(env, m, 1) == Tick(env, m);
  }

  /** Ticking never changes where the run ends. */
  lemma {:induction false} TicksSameEnd(env: Env, m: Machine, n: nat)
    requires Sound(env, m.core)
    ensures RunToHalt(env, Ticks(env, m, n)) == RunToHalt(env, m)
    decreases n
  {
    hide Runnable, ApplyMove, StartUp, AnswerPrompt, FinishLoop;
    if n > 0 {
      TickSound(env, m);
      if m.core.control.Halted? { assert Tick(env, m) == m; }
      TicksSameEnd(env, Tick(env, m), n - 1);
    }
  }

  /** A halted machine reached from m is the end of m's run: runs are deterministic and end. */
  lemma ReachesEnd(env: Env, a: Machine, b: Machine)
    requires Reaches(env, a, b)
    ensures RunToHalt(env, a) == RunToHalt(env, b)
    ensures b.core.control.Halted? ==> b == RunToHalt(env, a)
  {
    var n: nat :| Ticks(env, a, n) == b;
    TicksSameEnd(env, a, n);
  }
}
