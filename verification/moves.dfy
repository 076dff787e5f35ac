/** What one proposal may change in the tree, whatever state it starts from: one leaf, or one loop's bookkeeping.
    Nothing recorded is ever removed. */
module Moves {
  import opened StateModels
  import opened FailureRules
  import opened LoopPolicy
  import opened Transitions

  /** Any leaf of the tree, those of earlier iterations included. */
  datatype Place = StepPlace(pos: nat) | BodyPlace(pos: nat, iteration: nat, index: nat)

  predicate HasLeaf(nodes: seq<Node>, p: Place) {
    p.pos < |nodes| &&
    match p
    case StepPlace(pos) => nodes[pos].StepNode?
    case BodyPlace(pos, i, j) =>
      nodes[pos].LoopNode? && i < |nodes[pos].iterations| && j < |nodes[pos].iterations[i].steps|
  }

  function LeafOf(nodes: seq<Node>, p: Place): Leaf
    requires HasLeaf(nodes, p)
  {
    match p
    case StepPlace(pos) => nodes[pos].leaf
    case BodyPlace(pos, i, j) => nodes[pos].iterations[i].steps[j]
  }

  function PlaceOf(nodes: seq<Node>, at: Target): (p: Place)
    requires LeafAt(nodes, at)
    ensures HasLeaf(nodes, p) && LeafOf(nodes, p) == GetLeaf(nodes, at)
  {
    match at
    case Top(pos) => StepPlace(pos)
    case Body(pos, j) => BodyPlace(pos, |nodes[pos].iterations| - 1, j)
  }

  lemma PlaceStays(nodes: seq<Node>, at: Target, leaf: Leaf)
    requires LeafAt(nodes, at)
    ensures LeafAt(SetLeaf(nodes, at, leaf), at) && PlaceOf(SetLeaf(nodes, at, leaf), at) == PlaceOf(nodes, at)
  {
  }

  datatype Change =
    | Same
    | Recovered
    | LeafChange(at: Target, leaf: Leaf)
    | LoopChange(pos: nat, node: Node)

  /** A leaf keeps its attempts and begins at most one more; only beginning one leaves it running. */
  predicate LeafGrows(a: Leaf, b: Leaf) {
    && b.id == a.id && b.name == a.name
    && (|b.attempts| == |a.attempts| ==> !b.state.Running?)
    && (|b.attempts| != |a.attempts| ==>
          b.state.Running? && b.attempts != [] && b.attempts == a.attempts + [Attempt(Last(b.attempts).number, None)])
  }

  predicate Untouched(it: Iteration) {
    forall i :: 0 <= i < |it.steps| ==> it.steps[i].state.Pending? && it.steps[i].attempts == []
  }

  /** A loop keeps every leaf of its iterations and adds at most one iteration, untouched. */
  predicate LoopGrows(a: Node, b: Node) {
    && a.LoopNode? && b.LoopNode? && b.id == a.id
    && |a.iterations| <= |b.iterations| <= |a.iterations| + 1
    && (forall i :: 0 <= i < |a.iterations| ==> b.iterations[i].steps == a.iterations[i].steps)
    && (|b.iterations| > |a.iterations| ==> Untouched(Last(b.iterations)))
    && (forall i :: 0 <= i < |a.iterations| && a.iterations[i].untilPassed.Some? ==> b.iterations[i].untilPassed.Some?)
  }

  predicate Allowed(nodes: seq<Node>, change: Change) {
    match change
    case Same => true
    case Recovered => true
    case LeafChange(at, leaf) => LeafAt(nodes, at) && LeafGrows(GetLeaf(nodes, at), leaf)
    case LoopChange(pos, node) => pos < |nodes| && LoopGrows(nodes[pos], node)
  }

  function Changed(nodes: seq<Node>, change: Change): (r: seq<Node>)
    requires Allowed(nodes, change)
    ensures |r| == |nodes|
  {
    match change
    case Same => nodes
    case Recovered => Recover(nodes)
    case LeafChange(at, leaf) => SetLeaf(nodes, at, leaf)
    case LoopChange(pos, node) => nodes[pos := node]
  }

  /** Where each leaf of a changed tree comes from. */
  lemma ChangedLeaf(nodes: seq<Node>, change: Change, p: Place)
    requires Allowed(nodes, change) && HasLeaf(Changed(nodes, change), p)
    ensures var b := LeafOf(Changed(nodes, change), p);
            match change
            case Same => HasLeaf(nodes, p) && b == LeafOf(nodes, p)
            case Recovered => HasLeaf(nodes, p) && b == RecoverLeaf(LeafOf(nodes, p))
            case LeafChange(at, leaf) =>
              HasLeaf(nodes, p) && b == if p == PlaceOf(nodes, at) then leaf else LeafOf(nodes, p)
            case LoopChange(pos, _) =>
              if HasLeaf(nodes, p) then b == LeafOf(nodes, p) else b.state.Pending? && b.attempts == []
  {
  }

  lemma ChangedKeeps(nodes: seq<Node>, change: Change, p: Place)
    requires Allowed(nodes, change) && HasLeaf(nodes, p)
    ensures HasLeaf(Changed(nodes, change), p)
    ensures |LeafOf(Changed(nodes, change), p).attempts| >= |LeafOf(nodes, p).attempts|
  {
  }

  /** The leaf was running an attempt that has no result. */
  predicate CutOff(leaf: Leaf) {
    leaf.state.Running? && leaf.attempts != [] && Last(leaf.attempts).result.None?
  }

  /** The same leaf paused, its last attempt finished as failed by the interruption. */
  predicate ClosedAs(a: Leaf, b: Leaf) {
    && a.attempts != [] && b.id == a.id && b.name == a.name && b.state.Paused? && |b.attempts| == |a.attempts|
    && b.attempts[..|a.attempts| - 1] == a.attempts[..|a.attempts| - 1]
    && Last(b.attempts).number == Last(a.attempts).number
    && Last(b.attempts).result
       == Some(StepResult(a.id, ResultFailed, 1, "", Last(a.attempts).number, InterruptedAttempt))
  }

  /** What recovery does to the tree: it closes every attempt that was cut off, and changes nothing else. */
  lemma CutOffAreClosed(nodes: seq<Node>, p: Place)
    requires HasLeaf(nodes, p)
    ensures HasLeaf(Recover(nodes), p)
    ensures if CutOff(LeafOf(nodes, p)) then ClosedAs(LeafOf(nodes, p), LeafOf(Recover(nodes), p))
            else LeafOf(Recover(nodes), p) == LeafOf(nodes, p)
    ensures CutOff(LeafOf(nodes, p)) ==> HasOpenAttempt(nodes)
  {
    assert CutOff(LeafOf(nodes, p)) ==> NodeHasOpenAttempt(nodes[p.pos]);
  }

  /** And a tree is only committed for it when there was one. */
  lemma SomeCutOff(nodes: seq<Node>) returns (p: Place)
    requires HasOpenAttempt(nodes)
    ensures HasLeaf(nodes, p) && CutOff(LeafOf(nodes, p))
  {
    var i :| 0 <= i < |nodes| && NodeHasOpenAttempt(nodes[i]);
    if nodes[i].StepNode? { return StepPlace(i); }
    var its := nodes[i].iterations;
    var j :| 0 <= j < |its| && exists k :: 0 <= k < |its[j].steps| && OpenAttempt(its[j].steps[k]);
    var k :| 0 <= k < |its[j].steps| && OpenAttempt(its[j].steps[k]);
    p := BodyPlace(i, j, k);
  }

  /** Recovery, said of every leaf; it commits exactly when there is something to close. */
  lemma RecoveryCloses(nodes: seq<Node>)
    ensures HasOpenAttempt(nodes) <==> exists p: Place :: HasLeaf(nodes, p) && CutOff(LeafOf(nodes, p))
    ensures forall p: Place :: HasLeaf(nodes, p) ==>
              && HasLeaf(Recover(nodes), p)
              && if CutOff(LeafOf(nodes, p)) then ClosedAs(LeafOf(nodes, p), LeafOf(Recover(nodes), p))
                 else LeafOf(Recover(nodes), p) == LeafOf(nodes, p)
  {
    hide HasOpenAttempt, Recover, CutOff, ClosedAs, HasLeaf, LeafOf;
    forall p: Place | HasLeaf(nodes, p)
      ensures HasLeaf(Recover(nodes), p)
      ensures if CutOff(LeafOf(nodes, p)) then ClosedAs(LeafOf(nodes, p), LeafOf(Recover(nodes), p))
              else LeafOf(Recover(nodes), p) == LeafOf(nodes, p)
      ensures CutOff(LeafOf(nodes, p)) ==> HasOpenAttempt(nodes)
    {
      CutOffAreClosed(nodes, p);
    }
    if HasOpenAttempt(nodes) { var p := SomeCutOff(nodes); }
  }

  /** Where an iteration's conditions have been evaluated. */
  predicate Evaluated(nodes: seq<Node>, pos: nat, i: nat) {
    pos < |nodes| && nodes[pos].LoopNode? && i < |nodes[pos].iterations| && nodes[pos].iterations[i].untilPassed.Some?
  }

  lemma ChangedKeepsVerdicts(nodes: seq<Node>, change: Change, pos: nat, i: nat)
    requires Allowed(nodes, change) && Evaluated(nodes, pos, i)
    ensures Evaluated(Changed(nodes, change), pos, i)
  {
  }

  /** What the slot of the leaf at this place does to the tree. */
  predicate LeafEffect(nodes: seq<Node>, at: Target, e: Effect) {
    && LeafAt(nodes, at) && LeafAt(e.core.nodes, at)
    && LeafGrows(GetLeaf(nodes, at), GetLeaf(e.core.nodes, at))
    && e.core.nodes == SetLeaf(nodes, at, GetLeaf(e.core.nodes, at))
  }

  lemma BeginEffect(c: Core, at: Target, number: nat, status: Option<RunStatus>)
    requires LeafAt(c.nodes, at)
    ensures LeafEffect(c.nodes, at, BeginAttempt(c, at, number, status))
  {
  }

  lemma SettleEffect(c: Core, at: Target, state: NodeState, result: StepResult, status: Option<RunStatus>)
    requires LeafAt(c.nodes, at) && GetLeaf(c.nodes, at).attempts != [] && state != Running
    ensures LeafEffect(c.nodes, at, SettleLeaf(c, at, state, result, status))
  {
  }

  lemma FailEffect(c: Core, at: Target, status: Option<RunStatus>)
    requires LeafAt(c.nodes, at)
    ensures LeafEffect(c.nodes, at, FailLeaf(c, at, status))
  {
  }

  lemma ActionEffect(c: Core, at: Target, action: StepAction, result: StepResult, status: Option<RunStatus>)
    requires LeafAt(c.nodes, at) && GetLeaf(c.nodes, at).attempts != []
    ensures LeafEffect(c.nodes, at, ApplyAction(c, at, action, result, status))
  {
    hide LeafEffect, BeginAttempt, SettleLeaf, FailLeaf;
    match action
    case ActRetry => BeginEffect(c, at, Last(GetLeaf(c.nodes, at).attempts).number + 1, Some(RunRunning));
    case ActContinue => SettleEffect(c, at, Ignored, result, status);
    case ActAbort => FailEffect(c, at, status);
  }

  lemma GateEffect(env: Env, c: Core, at: Target, step: StepDef)
    requires LeafAt(c.nodes, at)
    ensures Gate(env, c, at, step).core.nodes == c.nodes || LeafEffect(c.nodes, at, Gate(env, c, at, step))
  {
    hide ApplyAction;
    var leaf := GetLeaf(c.nodes, at);
    if leaf.attempts != [] && Last(leaf.attempts).result.Some? {
      var policy := EffectivePolicy(step.onFailure);
      var (action, recorded) := ResolveTerminalAction(policy, Last(leaf.attempts).result.value);
      ActionEffect(c, at, action, recorded, None);
    }
  }

  /** The gate never starts another attempt by itself. */
  lemma GateKeepsAttempts(env: Env, c: Core, at: Target, step: StepDef)
    requires LeafAt(c.nodes, at) && GetLeaf(c.nodes, at).attempts != []
    requires Last(GetLeaf(c.nodes, at).attempts).result.Some?
    ensures var leaf := GetLeaf(c.nodes, at); var leaf1 := GetLeaf(Gate(env, c, at, step).core.nodes, at);
            && Gate(env, c, at, step).core.nodes == SetLeaf(c.nodes, at, leaf1)
            && leaf1.id == leaf.id && leaf1.name == leaf.name && |leaf1.attempts| == |leaf.attempts|
            && !leaf1.state.Running?
  {
  }

  lemma SettledEffect(env: Env, c: Core, at: Target, step: StepDef, result: StepResult)
    requires LeafAt(c.nodes, at) && GetLeaf(c.nodes, at).attempts != []
    ensures LeafEffect(c.nodes, at, Settle(env, c, at, step, result))
  {
    var recorded := RecordResult(GetLeaf(c.nodes, at), result);
    var c1 := c.(nodes := SetLeaf(c.nodes, at, recorded));
    if result.Ok() {
      var settled := GetLeaf(Settle(env, c, at, step, result).core.nodes, at);
      hide Gate;
      SetLeafAgain(c.nodes, at, recorded, settled);
    } else {
      GateKeepsAttempts(env, c1, at, step);
      hide Gate;
      SetLeafAgain(c.nodes, at, recorded, GetLeaf(Gate(env, c1, at, step).core.nodes, at));
    }
  }

  lemma SetLeafAgain(nodes: seq<Node>, at: Target, a: Leaf, b: Leaf)
    requires LeafAt(nodes, at)
    ensures SetLeaf(SetLeaf(nodes, at, a), at, b) == SetLeaf(nodes, at, b)
  {
    if at.Body? {
      var it := Last(nodes[at.pos].iterations);
      assert it.steps[at.index := a][at.index := b] == it.steps[at.index := b];
      assert Last(SetLeaf(nodes, at, a)[at.pos].iterations) == it.(steps := it.steps[at.index := a]);
      var its := nodes[at.pos].iterations;
      assert WithLast(WithLast(its, it.(steps := it.steps[at.index := a])), it.(steps := it.steps[at.index := b]))
          == WithLast(its, it.(steps := it.steps[at.index := b]));
    }
  }

  lemma SlotEffect(env: Env, c: Core, at: Target, step: StepDef)
    requires LeafAt(c.nodes, at) && RunnableLeaf(GetLeaf(c.nodes, at)) && !Terminal(GetLeaf(c.nodes, at).state)
    ensures AdvanceSlot(env, c, at, step).core.nodes == c.nodes
            || LeafEffect(c.nodes, at, AdvanceSlot(env, c, at, step))
  {
    hide Gate, Settle, LeafEffect;
    var leaf := GetLeaf(c.nodes, at);
    if leaf.state.Paused? {
      GateEffect(env, c, at, step);
    } else if leaf.state.Pending? {
      BeginEffect(c, at, 1, None);
    } else if c.replies != [] {
      var c2 := c.(executed := c.executed + [ExecutionOf(c.nodes, at, step)], replies := c.replies[1..]);
      if c.replies[0].Interrupt? {
        CancelEffects(c2, at);
      } else {
        SettledEffect(env, c2, at, step, c.replies[0].result);
      }
    }
  }

  lemma CancelEffects(c: Core, at: Target)
    requires LeafAt(c.nodes, at)
    ensures LeafEffect(c.nodes, at, CancelLeaf(c, at))
  {
  }

  /** What the decisions about the loop at this position do to the tree. */
  predicate LoopEffects(nodes: seq<Node>, pos: nat, after: seq<Node>) {
    && pos < |nodes| && |after| == |nodes|
    && (after == nodes || (after == nodes[pos := after[pos]] && LoopGrows(nodes[pos], after[pos])))
  }

  lemma RepeatEffect(c: Core, pos: nat, body: seq<StepDef>, number: nat)
    requires LoopAt(c.nodes, pos)
    ensures LoopEffects(c.nodes, pos, RepeatIteration(c, pos, body, number).core.nodes)
  {
    var n := RepeatIteration(c, pos, body, number).core.nodes[pos];
    assert Last(n.iterations).steps == PendingLeaves(body);
  }

  lemma CloseEffect(env: Env, c: Core, pos: nat)
    requires LoopAt(c.nodes, pos)
    ensures LoopEffects(c.nodes, pos, CloseIteration(env, c, pos).core.nodes)
  {
    hide UntilHolds;
  }

  lemma FinishEffect(c: Core, pos: nat, failed: bool, error: bool)
    requires LoopAt(c.nodes, pos)
    ensures LoopEffects(c.nodes, pos, FinishLoop(c, pos, failed, error).core.nodes)
  {
  }

  lemma GrantEffect(c: Core, pos: nat)
    requires LoopAt(c.nodes, pos)
    ensures LoopEffects(c.nodes, pos, GrantIterations(c, pos).core.nodes)
    ensures LoopEffects(c.nodes, pos, CancelLoop(c, pos).core.nodes)
  {
  }

  lemma CeilingEffect(env: Env, c: Core, pos: nat)
    requires LoopAt(c.nodes, pos)
    ensures LoopEffects(c.nodes, pos, ResolveCeiling(env, c, pos).core.nodes)
  {
    hide LoopGrows, FinishLoop, GrantIterations, CancelLoop;
    FinishEffect(c, pos, true, true);
    if env.Interactive() && c.replies != [] {
      var c1 := c.(replies := c.replies[1..]);
      GrantEffect(c1, pos);
      FinishEffect(c1, pos, true, true);
      FinishEffect(c1, pos, false, false);
    }
  }

  lemma LoopEffect(env: Env, c: Core, pos: nat, body: seq<StepDef>, decision: LoopDecision)
    requires LoopAt(c.nodes, pos) && !decision.AdvanceBodyStep?
    ensures LoopEffects(c.nodes, pos, ApplyLoopDecision(env, c, pos, body, decision).core.nodes)
  {
    hide LoopEffects, RepeatIteration, CloseIteration, FinishLoop, ResolveCeiling;
    match decision
    case CompleteIteration => CloseEffect(env, c, pos);
    case RepeatNextIteration(number) => RepeatEffect(c, pos, body, number);
    case TerminateLoopPassed => FinishEffect(c, pos, false, false);
    case TerminateLoopCeiling =>
      var failed := c.nodes[pos].onMaxIterations.Abort?;
      FinishEffect(c, pos, failed, failed);
    case PromptCeiling => CeilingEffect(env, c, pos);
  }

  lemma OpenEffect(c: Core, pos: nat)
    requires LoopAt(c.nodes, pos)
    ensures LoopGrows(c.nodes[pos], OpenIteration(c, pos).core.nodes[pos])
    ensures OpenIteration(c, pos).core.nodes == c.nodes[pos := OpenIteration(c, pos).core.nodes[pos]]
  {
  }

  /** Where a leaf change happens: at the slot selected, or at the open prompt. */
  predicate Placed(env: Env, c: Core, change: Change)
    requires Runnable(env.blueprint, c.nodes)
  {
    match change
    case LeafChange(at, _) =>
      || c.control == Prompting(at)
      || (c.control.Ready? && SelectMove(env.blueprint, c.nodes).RunSlot?
          && SelectMove(env.blueprint, c.nodes).at == at)
    case Recovered => c.control.Starting?
    case _ => true
  }

  /** Every proposal is one allowed change. */
  lemma ProposeChanges(env: Env, c: Core) returns (change: Change)
    requires Sound(env, c)
    ensures Allowed(c.nodes, change) && Propose(env, c).core.nodes == Changed(c.nodes, change)
    ensures Placed(env, c, change)
  {
    hide Runnable, ApplyMove;
    var e := Propose(env, c);
    change := Same;
    match c.control
    case Halted(_) =>
    case Starting => change := Recovered;
    case Prompting(at) =>
      if c.replies != [] && !c.replies[0].Interrupt? {
        var (action, recorded) := ApplyPromptDecision(c.replies[0].step,
                                                      Last(GetLeaf(c.nodes, at).attempts).result.value);
        ActionEffect(c.(replies := c.replies[1..]), at, action, recorded, Some(RunRunning));
        change := LeafChange(at, GetLeaf(e.core.nodes, at));
      }
    case FailingLoop(pos) => change := LoopChange(pos, e.core.nodes[pos]);
    case Ready => change := MoveChanges(env, c);
  }

  lemma MoveChanges(env: Env, c: Core) returns (change: Change)
    requires Sound(env, c) && c.control.Ready?
    ensures Allowed(c.nodes, change) && ApplyMove(env, c).core.nodes == Changed(c.nodes, change)
    ensures Placed(env, c, change)
  {
    hide AdvanceSlot, ApplyLoopDecision, OpenIteration, SetLeaf, Recover;
    var e := ApplyMove(env, c);
    change := Same;
    match SelectMove(env.blueprint, c.nodes)
    case AllTerminal =>
    case NoDefinition =>
    case RunSlot(at, step) =>
      assert RunnableNode(env.blueprint, c.nodes[at.pos]);
      SlotEffect(env, c, at, step);
      if e.core.nodes != c.nodes { change := LeafChange(at, GetLeaf(e.core.nodes, at)); }
    case OpenLoop(pos) =>
      OpenEffect(c, pos);
      change := LoopChange(pos, e.core.nodes[pos]);
    case LoopMove(pos, body, decision) =>
      LoopEffect(env, c, pos, body, decision);
      if e.core.nodes != c.nodes { change := LoopChange(pos, e.core.nodes[pos]); }
  }
}
