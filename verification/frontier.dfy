/** The frontier of a run: everything before it is done, everything after it is untouched, and at it at most one
    attempt is in progress. Every tree a coordinator commits has one. */
module Frontier {
  import opened StateModels
  import opened FailureRules
  import opened LoopPolicy
  import opened Projection
  import opened Transitions
  import opened Solo
  import opened Refinement

  // ---- leaves ----

  predicate AllFinished(attempts: seq<Attempt>) {
    forall i :: 0 <= i < |attempts| ==> attempts[i].result.Some?
  }

  /** The last attempt is in progress, all earlier ones are finished. */
  predicate LastOpen(attempts: seq<Attempt>) {
    attempts != [] && Last(attempts).result.None? && AllFinished(attempts[..|attempts| - 1])
  }

  predicate Names(step: StepDef, leaf: Leaf) {
    leaf.id == step.id && leaf.name == step.name
  }

  predicate DoneLeaf(step: StepDef, leaf: Leaf) {
    Names(step, leaf) && Settled(leaf.state) && leaf.attempts != [] && AllFinished(leaf.attempts)
  }

  /** Running exactly while its last attempt is open; paused only on a finished attempt. */
  predicate LiveLeaf(step: StepDef, leaf: Leaf) {
    || leaf == PendingLeaf(step)
    || (Names(step, leaf) && leaf.state.Running? && LastOpen(leaf.attempts))
    || (Names(step, leaf) && leaf.state.Paused? && leaf.attempts != [] && AllFinished(leaf.attempts))
  }

  predicate BrokenLeaf(step: StepDef, leaf: Leaf) {
    || (Names(step, leaf) && leaf.state.Failed? && leaf.attempts != [] && AllFinished(leaf.attempts))
    || (Names(step, leaf) && leaf.state.Cancelled? && LastOpen(leaf.attempts))
  }

  // ---- bodies and iterations ----

  /** Body steps before j are done, step j is live or broken, the later ones are untouched. */
  predicate BodyAt(steps: seq<StepDef>, leaves: seq<Leaf>, j: nat, broken: bool) {
    && |leaves| == |steps| && j <= |steps| && (broken ==> j < |steps|)
    && (forall i :: 0 <= i < j ==> DoneLeaf(steps[i], leaves[i]))
    && (j < |steps| ==> if broken then BrokenLeaf(steps[j], leaves[j]) else LiveLeaf(steps[j], leaves[j]))
    && (forall i :: j < i < |steps| ==> leaves[i] == PendingLeaf(steps[i]))
  }

  /** An iteration whose conditions were evaluated: until_passed says whether all of them hold on its results. */
  predicate ClosedIteration(env: Env, loop: LoopDef, it: Iteration, number: nat) {
    && it.number == number && it.state.Completed? && |it.steps| == |loop.body|
    && (forall i :: 0 <= i < |it.steps| ==> DoneLeaf(loop.body[i], it.steps[i]))
    && it.untilPassed == Some(UntilHolds(env.holds, loop.until, number, IterationResults(it.steps)))
  }

  predicate RunningIteration(loop: LoopDef, it: Iteration, number: nat, j: nat) {
    it.number == number && it.state.Running? && it.untilPassed.None? && BodyAt(loop.body, it.steps, j, false)
  }

  predicate BrokenIteration(loop: LoopDef, it: Iteration, number: nat, j: nat) {
    && it.number == number && (it.state.Running? || it.state.Failed?) && it.untilPassed.None?
    && BodyAt(loop.body, it.steps, j, true)
  }

  // ---- loops ----

  /** Iterations are numbered from 1 up to the ceiling, the ceiling grew only by whole grants, and every iteration
      but the last was closed without its conditions holding. */
  predicate LoopHead(env: Env, loop: LoopDef, n: Node) {
    && n.LoopNode? && n.id == loop.id && n.maxIterations == loop.maxIterations && n.until == loop.until
    && n.onMaxIterations == loop.onMaxIterations && n.granted % CEILING_GRANT_COUNT == 0
    && n.iterations != [] && (|n.iterations| == 1 || |n.iterations| <= IterationCeiling(n))
    && (forall i :: 0 <= i < |n.iterations| - 1 ==>
          ClosedIteration(env, loop, n.iterations[i], i + 1) && n.iterations[i].untilPassed == Some(false))
  }

  predicate LoopClosed(env: Env, loop: LoopDef, n: Node) {
    LoopHead(env, loop, n) && ClosedIteration(env, loop, Last(n.iterations), |n.iterations|)
  }

  predicate LoopRunningAt(env: Env, loop: LoopDef, n: Node, j: nat) {
    LoopHead(env, loop, n) && n.state.Running? && RunningIteration(loop, Last(n.iterations), |n.iterations|, j)
  }

  predicate LoopBrokenAt(env: Env, loop: LoopDef, n: Node, j: nat) {
    && LoopHead(env, loop, n) && BrokenIteration(loop, Last(n.iterations), |n.iterations|, j)
    && (n.state.Running? || n.state.Failed?)
  }

  /** Its body step has failed and the loop is still to be. */
  predicate LoopFailingAt(env: Env, loop: LoopDef, n: Node, j: nat) {
    LoopBrokenAt(env, loop, n, j) && n.state.Running?
  }

  /** The loop used up its iterations without its conditions holding. */
  predicate Exhausted(env: Env, loop: LoopDef, n: Node) {
    LoopClosed(env, loop, n) && Last(n.iterations).untilPassed == Some(false) && |n.iterations| >= IterationCeiling(n)
  }

  /** A completed loop met its conditions, or ran out of iterations under a policy that lets the run go on. */
  predicate DoneLoop(env: Env, loop: LoopDef, n: Node) {
    && LoopClosed(env, loop, n) && n.state.Completed?
    && (Last(n.iterations).untilPassed == Some(true) || (Exhausted(env, loop, n) && !loop.onMaxIterations.Abort?))
  }

  predicate LiveLoop(env: Env, loop: LoopDef, n: Node) {
    || n == PlanNode(LoopItem(loop))
    || (exists j :: 0 <= j <= |loop.body| && LoopRunningAt(env, loop, n, j))
    || (LoopClosed(env, loop, n) && n.state.Running?)
  }

  predicate BrokenLoop(env: Env, loop: LoopDef, n: Node) {
    || (exists j :: 0 <= j < |loop.body| && LoopBrokenAt(env, loop, n, j))
    || (Exhausted(env, loop, n) && (n.state.Failed? || n.state.Cancelled?))
  }

  // ---- trees ----

  predicate DoneNode(env: Env, d: Definition, n: Node) {
    match d
    case StepItem(step) => n.StepNode? && DoneLeaf(step, n.leaf)
    case LoopItem(loop) => DoneLoop(env, loop, n)
  }

  predicate LiveNode(env: Env, d: Definition, n: Node) {
    match d
    case StepItem(step) => n.StepNode? && LiveLeaf(step, n.leaf)
    case LoopItem(loop) => LiveLoop(env, loop, n)
  }

  predicate BrokenNode(env: Env, d: Definition, n: Node) {
    match d
    case StepItem(step) => n.StepNode? && BrokenLeaf(step, n.leaf)
    case LoopItem(loop) => BrokenLoop(env, loop, n)
  }

  predicate AroundFrontier(env: Env, nodes: seq<Node>, k: nat) {
    && |nodes| == |env.blueprint| && k <= |nodes|
    && (forall i :: 0 <= i < k ==> DoneNode(env, env.blueprint[i], nodes[i]))
    && (forall i :: k < i < |nodes| ==> nodes[i] == PlanNode(env.blueprint[i]))
  }

  /** A tree a run can go on from. */
  predicate LiveTree(env: Env, nodes: seq<Node>, k: nat) {
    AroundFrontier(env, nodes, k) && (k < |nodes| ==> LiveNode(env, env.blueprint[k], nodes[k]))
  }

  /** A tree whose run has failed or was cancelled at k. */
  predicate BrokenTree(env: Env, nodes: seq<Node>, k: nat) {
    AroundFrontier(env, nodes, k) && k < |nodes| && BrokenNode(env, env.blueprint[k], nodes[k])
  }

  /** The leaf at this place is the one the run is at, and this is its definition. */
  predicate AtFrontier(env: Env, nodes: seq<Node>, k: nat, at: Target, step: StepDef) {
    && k < |nodes| && k < |env.blueprint| && at.pos == k
    && match at
       case Top(_) => env.blueprint[k] == StepItem(step)
       case Body(_, j) =>
         && env.blueprint[k].LoopItem? && LoopRunningAt(env, env.blueprint[k].loop, nodes[k], j)
         && j < |env.blueprint[k].loop.body| && step == env.blueprint[k].loop.body[j]
  }

  /** Only such a prompt is ever open. */
  predicate PromptOpen(env: Env, nodes: seq<Node>, k: nat, at: Target, step: StepDef) {
    && AtFrontier(env, nodes, k, at, step) && LeafAt(nodes, at) && GetLeaf(nodes, at).state.Paused?
    && Asks(step.onFailure) && env.Interactive()
  }

  /** What holds of a coordinator whose commits have all been accepted, standing at frontier k. */
  ghost predicate AtWork(env: Env, c: Core, k: nat) {
    match c.control
    case Starting => LiveTree(env, c.nodes, k) && !c.hasError
    case Ready => LiveTree(env, c.nodes, k) && !c.hasError
    case Prompting(at) =>
      LiveTree(env, c.nodes, k) && !c.hasError && exists step :: PromptOpen(env, c.nodes, k, at, step)
    case FailingLoop(pos) =>
      && pos == k && BrokenTree(env, c.nodes, k) && c.hasError && env.blueprint[k].LoopItem?
      && exists j :: 0 <= j < |env.blueprint[k].loop.body| && LoopFailingAt(env, env.blueprint[k].loop, c.nodes[k], j)
    case Halted(Killed) => LiveTree(env, c.nodes, k) && k < |c.nodes|
    case Halted(Returned(status)) =>
      match status
      case RunCompleted => LiveTree(env, c.nodes, k) && k == |c.nodes| && !c.hasError
      case RunPaused =>
        LiveTree(env, c.nodes, k) && c.hasError && exists at, step :: PromptOpen(env, c.nodes, k, at, step)
      case RunFailed => BrokenTree(env, c.nodes, k) && c.hasError
      case RunCancelled => BrokenTree(env, c.nodes, k) && c.hasError
      case RunRunning => false
  }

  // ---- selecting the next move at the frontier ----

  lemma DoneIsTerminal(env: Env, d: Definition, n: Node)
    requires DoneNode(env, d, n)
    ensures Terminal(NodeStateOf(n)) && NodeId(n) == DefinitionId(d)
  {
  }

  lemma LiveIsNot(env: Env, d: Definition, n: Node)
    requires LiveNode(env, d, n)
    ensures !Terminal(NodeStateOf(n)) && NodeId(n) == DefinitionId(d)
  {
  }

  /** The frontier of a live tree is what _next_node finds. */
  lemma FrontierIsNext(env: Env, nodes: seq<Node>, k: nat)
    requires LiveTree(env, nodes, k)
    ensures FirstLive(nodes) == k
  {
    hide DoneNode, LiveNode;
    forall i | 0 <= i < k
      ensures Terminal(NodeStateOf(nodes[i]))
    {
      DoneIsTerminal(env, env.blueprint[i], nodes[i]);
    }
    if k < |nodes| { LiveIsNot(env, env.blueprint[k], nodes[k]); }
    FirstLiveIs(nodes, k);
  }

  lemma BodyFirstLive(steps: seq<StepDef>, leaves: seq<Leaf>, j: nat)
    requires BodyAt(steps, leaves, j, false)
    ensures Min(|steps|, |leaves|) == |steps| && FirstLiveLeaf(leaves, |steps|) == j
  {
    FirstLiveLeafIs(leaves, |steps|, j);
  }

  lemma DoneFirstLive(steps: seq<StepDef>, leaves: seq<Leaf>)
    requires |leaves| == |steps| && forall i :: 0 <= i < |leaves| ==> DoneLeaf(steps[i], leaves[i])
    ensures Min(|steps|, |leaves|) == |steps| && FirstLiveLeaf(leaves, |steps|) == |steps|
  {
    FirstLiveLeafIs(leaves, |steps|, |steps|);
  }

  /** What LoopPolicy decides of a running loop, by its last iteration. */
  lemma RunningDecides(env: Env, loop: LoopDef, n: Node, j: nat)
    requires LoopRunningAt(env, loop, n, j)
    ensures j < |loop.body| ==> Decide(n, loop.body) == AdvanceBodyStep(j)
    ensures j == |loop.body| ==> Decide(n, loop.body) == CompleteIteration
  {
    BodyFirstLive(loop.body, Last(n.iterations).steps, j);
  }

  lemma ClosedDecides(env: Env, loop: LoopDef, n: Node)
    requires LoopClosed(env, loop, n)
    ensures var decision := Decide(n, loop.body);
            if Last(n.iterations).untilPassed == Some(true) then decision == TerminateLoopPassed
            else if |n.iterations| < IterationCeiling(n) then decision == RepeatNextIteration(|n.iterations| + 1)
            else decision == HandleCeiling(loop.onMaxIterations) && Exhausted(env, loop, n)
  {
    DoneFirstLive(loop.body, Last(n.iterations).steps);
  }

  predicate BodyRunnable(loop: LoopDef, n: Node) {
    && n.LoopNode? && n.id == loop.id && n.iterations != [] && |Last(n.iterations).steps| == |loop.body|
    && forall i :: 0 <= i < |loop.body| ==> RunnableLeaf(Last(n.iterations).steps[i])
  }

  lemma DefinedIsRunnable(env: Env, i: nat, n: Node)
    requires Resolvable(env.blueprint) && i < |env.blueprint|
    requires match env.blueprint[i]
             case StepItem(step) => n.StepNode? && n.leaf.id == step.id && RunnableLeaf(n.leaf)
             case LoopItem(loop) => BodyRunnable(loop, n)
    ensures RunnableNode(env.blueprint, n)
  {
    assert FindsOwn(env.blueprint, env.blueprint[i]);
  }

  lemma ClosedRunnable(env: Env, loop: LoopDef, n: Node)
    requires LoopClosed(env, loop, n)
    ensures BodyRunnable(loop, n)
  {
    forall i | 0 <= i < |loop.body|
      ensures RunnableLeaf(Last(n.iterations).steps[i])
    {
      assert DoneLeaf(loop.body[i], Last(n.iterations).steps[i]);
    }
  }

  lemma RunningRunnable(env: Env, loop: LoopDef, n: Node, j: nat)
    requires LoopRunningAt(env, loop, n, j)
    ensures BodyRunnable(loop, n)
  {
    var leaves := Last(n.iterations).steps;
    forall i | 0 <= i < |loop.body|
      ensures RunnableLeaf(leaves[i])
    {
      if i < j { assert DoneLeaf(loop.body[i], leaves[i]); }
      if i > j { assert leaves[i] == PendingLeaf(loop.body[i]); }
    }
  }

  lemma BrokenRunnable(env: Env, loop: LoopDef, n: Node, j: nat)
    requires LoopBrokenAt(env, loop, n, j)
    ensures BodyRunnable(loop, n)
  {
    var leaves := Last(n.iterations).steps;
    forall i | 0 <= i < |loop.body|
      ensures RunnableLeaf(leaves[i])
    {
      if i < j { assert DoneLeaf(loop.body[i], leaves[i]); }
      if i > j { assert leaves[i] == PendingLeaf(loop.body[i]); }
    }
  }

  lemma NodeRunnable(env: Env, i: nat, n: Node)
    requires Resolvable(env.blueprint) && i < |env.blueprint|
    requires DoneNode(env, env.blueprint[i], n) || LiveNode(env, env.blueprint[i], n)
             || BrokenNode(env, env.blueprint[i], n)
    ensures RunnableNode(env.blueprint, n)
  {
    if env.blueprint[i].LoopItem? {
      hide LoopHead, ClosedIteration, RunningIteration, BrokenIteration, RunnableNode, BodyRunnable;
      var loop := env.blueprint[i].loop;
      if n == PlanNode(env.blueprint[i]) {
        PlanBodyRunnable(loop);
      } else if LoopClosed(env, loop, n) {
        ClosedRunnable(env, loop, n);
      } else if j :| 0 <= j <= |loop.body| && LoopRunningAt(env, loop, n, j) {
        RunningRunnable(env, loop, n, j);
      } else {
        var j :| 0 <= j < |loop.body| && LoopBrokenAt(env, loop, n, j);
        BrokenRunnable(env, loop, n, j);
      }
    }
    DefinedIsRunnable(env, i, n);
  }

  lemma PlanBodyRunnable(loop: LoopDef)
    ensures BodyRunnable(loop, PlanNode(LoopItem(loop)))
  {
  }

  /** No reachable tree makes the coordinator raise, or miss a definition. */
  lemma TreeRunnable(env: Env, nodes: seq<Node>, k: nat)
    requires Resolvable(env.blueprint) && (LiveTree(env, nodes, k) || BrokenTree(env, nodes, k))
    ensures Runnable(env.blueprint, nodes)
  {
    hide DoneNode, LiveNode, BrokenNode, RunnableNode;
    forall i | 0 <= i < |nodes|
      ensures RunnableNode(env.blueprint, nodes[i])
    {
      if i > k { PlanIsLive(env, env.blueprint[i]); }
      NodeRunnable(env, i, nodes[i]);
    }
  }

  lemma PlanIsLive(env: Env, d: Definition)
    ensures LiveNode(env, d, PlanNode(d))
  {
  }

  /** The move selected in a live tree is the one its frontier calls for. */
  lemma FrontierSelects(env: Env, nodes: seq<Node>, k: nat)
    requires Resolvable(env.blueprint) && LiveTree(env, nodes, k)
    ensures Runnable(env.blueprint, nodes)
    ensures k == |nodes| ==> SelectMove(env.blueprint, nodes) == AllTerminal
    ensures k < |nodes| && env.blueprint[k].StepItem? ==>
              SelectMove(env.blueprint, nodes) == RunSlot(Top(k), env.blueprint[k].step)
    ensures k < |nodes| && env.blueprint[k].LoopItem? ==>
              SelectMove(env.blueprint, nodes) == LoopNodeMove(nodes[k], k, env.blueprint[k].loop.body)
  {
    TreeRunnable(env, nodes, k);
    FrontierIsNext(env, nodes, k);
    if k < |nodes| {
      assert FindsOwn(env.blueprint, env.blueprint[k]);
      LiveIsNot(env, env.blueprint[k], nodes[k]);
    }
  }

  /** A slot is only ever run at the frontier, with its own definition. */
  lemma SlotAtFrontier(env: Env, nodes: seq<Node>, k: nat, at: Target, step: StepDef)
    requires Resolvable(env.blueprint) && LiveTree(env, nodes, k)
    requires Runnable(env.blueprint, nodes) && SelectMove(env.blueprint, nodes) == RunSlot(at, step)
    ensures AtFrontier(env, nodes, k, at, step)
  {
    hide LoopHead, ClosedIteration, RunningIteration;
    FrontierSelects(env, nodes, k);
    if env.blueprint[k].LoopItem? {
      var loop := env.blueprint[k].loop;
      var n := nodes[k];
      if LoopClosed(env, loop, n) {
        ClosedDecides(env, loop, n);
      } else {
        var j :| 0 <= j <= |loop.body| && LoopRunningAt(env, loop, n, j);
        RunningDecides(env, loop, n, j);
      }
    }
  }

  lemma FrontierIsSlot(env: Env, nodes: seq<Node>, k: nat, at: Target, step: StepDef)
    requires Resolvable(env.blueprint) && LiveTree(env, nodes, k) && AtFrontier(env, nodes, k, at, step)
    ensures Runnable(env.blueprint, nodes) && SelectMove(env.blueprint, nodes) == RunSlot(at, step)
  {
    FrontierSelects(env, nodes, k);
    if at.Body? {
      RunningDecides(env, env.blueprint[k].loop, nodes[k], at.index);
    }
  }

  // ---- changing the frontier leaf ----

  lemma FrontierLeaf(env: Env, nodes: seq<Node>, k: nat, at: Target, step: StepDef)
    requires LiveTree(env, nodes, k) && AtFrontier(env, nodes, k, at, step)
    ensures LeafAt(nodes, at) && LiveLeaf(step, GetLeaf(nodes, at))
  {
  }

  lemma BodyLeafPlaced(env: Env, loop: LoopDef, nodes: seq<Node>, pos: nat, j: nat, leaf: Leaf)
    requires pos < |nodes| && LoopRunningAt(env, loop, nodes[pos], j) && j < |loop.body|
    ensures LeafAt(nodes, Body(pos, j))
    ensures var n := SetLeaf(nodes, Body(pos, j), leaf)[pos];
            && (LiveLeaf(loop.body[j], leaf) ==> LoopRunningAt(env, loop, n, j))
            && (DoneLeaf(loop.body[j], leaf) ==> LoopRunningAt(env, loop, n, j + 1))
            && (BrokenLeaf(loop.body[j], leaf) ==> LoopFailingAt(env, loop, n, j))
  {
    hide ClosedIteration, LiveLeaf, DoneLeaf, BrokenLeaf;
    var its := nodes[pos].iterations;
    var it := Last(its);
    var n := SetLeaf(nodes, Body(pos, j), leaf)[pos];
    var it1 := it.(steps := it.steps[j := leaf]);
    assert n.iterations == its[..|its| - 1] + [it1];
    assert Last(n.iterations) == it1;
    forall i | 0 <= i < |its| - 1
      ensures n.iterations[i] == its[i]
    {
    }
    BodyUpdated(loop.body, it.steps, j, leaf);
  }

  lemma BodyUpdated(steps: seq<StepDef>, leaves: seq<Leaf>, j: nat, leaf: Leaf)
    requires BodyAt(steps, leaves, j, false) && j < |steps|
    ensures LiveLeaf(steps[j], leaf) ==> BodyAt(steps, leaves[j := leaf], j, false)
    ensures DoneLeaf(steps[j], leaf) ==> BodyAt(steps, leaves[j := leaf], j + 1, false)
    ensures BrokenLeaf(steps[j], leaf) ==> BodyAt(steps, leaves[j := leaf], j, true)
  {
  }

  function NextFrontier(k: nat, at: Target): nat { if at.Top? then k + 1 else k }

  /** Replacing the frontier leaf keeps the tree live, moves its frontier on, or breaks it, by the new leaf. */
  lemma LeafPlaced(env: Env, nodes: seq<Node>, k: nat, at: Target, step: StepDef, leaf: Leaf)
    requires LiveTree(env, nodes, k) && AtFrontier(env, nodes, k, at, step)
    ensures LeafAt(nodes, at)
    ensures LiveLeaf(step, leaf) ==>
              LiveTree(env, SetLeaf(nodes, at, leaf), k) && AtFrontier(env, SetLeaf(nodes, at, leaf), k, at, step)
    ensures DoneLeaf(step, leaf) ==> LiveTree(env, SetLeaf(nodes, at, leaf), NextFrontier(k, at))
    ensures BrokenLeaf(step, leaf) ==> BrokenTree(env, SetLeaf(nodes, at, leaf), k)
    ensures BrokenLeaf(step, leaf) && at.Body? ==>
              env.blueprint[k].LoopItem? && at.index < |env.blueprint[k].loop.body|
              && LoopFailingAt(env, env.blueprint[k].loop, SetLeaf(nodes, at, leaf)[k], at.index)
  {
    hide LoopHead, ClosedIteration, RunningIteration, BrokenIteration, LiveLeaf, DoneLeaf, BrokenLeaf;
    if at.Body? {
      BodyLeafPlaced(env, env.blueprint[k].loop, nodes, k, at.index, leaf);
    }
    var r := SetLeaf(nodes, at, leaf);
    assert forall i :: 0 <= i < k ==> DoneNode(env, env.blueprint[i], nodes[i]);
    if DoneLeaf(step, leaf) && at.Top? && k + 1 < |nodes| {
      PlanIsLive(env, env.blueprint[k + 1]);
      assert r[k + 1] == PlanNode(env.blueprint[k + 1]);
    }
  }

  // ---- every proposal keeps the frontier ----

  lemma FinishedLast(attempts: seq<Attempt>, a: Attempt)
    requires attempts != [] && (AllFinished(attempts) || LastOpen(attempts)) && a.result.Some?
    ensures AllFinished(WithLast(attempts, a)) && WithLast(attempts, a) != []
  {
    var r := WithLast(attempts, a);
    forall i | 0 <= i < |r|
      ensures r[i].result.Some?
    {
      if i < |attempts| - 1 { assert r[i] == attempts[..|attempts| - 1][i]; }
    }
  }

  lemma OpenedLast(attempts: seq<Attempt>, number: nat)
    requires AllFinished(attempts)
    ensures LastOpen(attempts + [Attempt(number, None)])
  {
    assert (attempts + [Attempt(number, None)])[..|attempts|] == attempts;
  }

  /** Where a committed change to the frontier leaf leaves the coordinator. */
  lemma ChangeKeeps(env: Env, c: Core, k: nat, at: Target, step: StepDef, leaf: Leaf, c1: Core) returns (k': nat)
    requires LiveTree(env, c.nodes, k) && AtFrontier(env, c.nodes, k, at, step) && LeafAt(c.nodes, at)
    requires c1.nodes == SetLeaf(c.nodes, at, leaf)
    requires match c1.control
             case Ready => !c1.hasError && (LiveLeaf(step, leaf) || DoneLeaf(step, leaf))
             case Prompting(p) =>
               && !c1.hasError && p == at && LiveLeaf(step, leaf) && leaf.state.Paused?
               && Asks(step.onFailure) && env.Interactive()
             case FailingLoop(pos) => c1.control == FailedAt(at) && c1.hasError && BrokenLeaf(step, leaf)
             case Halted(Returned(RunFailed)) => c1.control == FailedAt(at) && c1.hasError && BrokenLeaf(step, leaf)
             case Halted(Returned(RunCancelled)) => c1.hasError && BrokenLeaf(step, leaf)
             case _ => false
    ensures AtWork(env, c1, k') && k <= k'
  {
    LeafPlaced(env, c.nodes, k, at, step, leaf);
    hide LiveTree, BrokenTree, AtFrontier, SetLeaf, DoneLeaf, LiveLeaf, BrokenLeaf, LoopBrokenAt;
    k' := if c1.control.Ready? && DoneLeaf(step, leaf) && !LiveLeaf(step, leaf) then NextFrontier(k, at) else k;
    if c1.control.Prompting? {
      assert PromptOpen(env, c1.nodes, k, at, step);
    }
    if c1.control.FailingLoop? {
      assert at.Body?;
      AtFrontierPos(env, c.nodes, k, at, step);
    }
  }

  lemma AtFrontierPos(env: Env, nodes: seq<Node>, k: nat, at: Target, step: StepDef)
    requires AtFrontier(env, nodes, k, at, step)
    ensures at.pos == k
  {
  }

  lemma BeginKeeps(env: Env, c: Core, k: nat, at: Target, step: StepDef, number: nat, status: Option<RunStatus>)
    returns (k': nat)
    requires LiveTree(env, c.nodes, k) && AtFrontier(env, c.nodes, k, at, step) && LeafAt(c.nodes, at)
    requires LiveLeaf(step, GetLeaf(c.nodes, at)) && !GetLeaf(c.nodes, at).state.Running? && !c.hasError
    ensures AtWork(env, BeginAttempt(c, at, number, status).core, k') && k <= k'
  {
    var leaf := GetLeaf(c.nodes, at);
    OpenedLast(leaf.attempts, number);
    var leaf1 := leaf.(attempts := leaf.attempts + [Attempt(number, None)], state := Running);
    k' := ChangeKeeps(env, c, k, at, step, leaf1, BeginAttempt(c, at, number, status).core);
  }

  lemma SettleKeeps(env: Env, c: Core, k: nat, at: Target, step: StepDef, state: NodeState, result: StepResult,
                    status: Option<RunStatus>) returns (k': nat)
    requires LiveTree(env, c.nodes, k) && AtFrontier(env, c.nodes, k, at, step) && LeafAt(c.nodes, at) && !c.hasError
    requires Names(step, GetLeaf(c.nodes, at)) && GetLeaf(c.nodes, at).attempts != [] && Settled(state)
    requires AllFinished(GetLeaf(c.nodes, at).attempts) || LastOpen(GetLeaf(c.nodes, at).attempts)
    ensures AtWork(env, SettleLeaf(c, at, state, result, status).core, k') && k <= k'
  {
    var leaf := GetLeaf(c.nodes, at);
    FinishedLast(leaf.attempts, Last(leaf.attempts).(result := Some(result)));
    var attempts := WithLast(leaf.attempts, Last(leaf.attempts).(result := Some(result)));
    k' := ChangeKeeps(env, c, k, at, step, leaf.(attempts := attempts, state := state),
                      SettleLeaf(c, at, state, result, status).core);
  }

  lemma ActionKeeps(env: Env, c: Core, k: nat, at: Target, step: StepDef, action: StepAction, result: StepResult,
                    status: Option<RunStatus>) returns (k': nat)
    requires LiveTree(env, c.nodes, k) && AtFrontier(env, c.nodes, k, at, step) && LeafAt(c.nodes, at) && !c.hasError
    requires Names(step, GetLeaf(c.nodes, at)) && GetLeaf(c.nodes, at).attempts != []
    requires AllFinished(GetLeaf(c.nodes, at).attempts)
    requires action.ActRetry? ==> GetLeaf(c.nodes, at).state.Paused?
    ensures AtWork(env, ApplyAction(c, at, action, result, status).core, k') && k <= k'
  {
    hide Runnable, AtWork, IterationResults;
    match action
    case ActRetry =>
      k' := BeginKeeps(env, c, k, at, step, Last(GetLeaf(c.nodes, at).attempts).number + 1, Some(RunRunning));
    case ActContinue =>
      k' := SettleKeeps(env, c, k, at, step, Ignored, result, status);
    case ActAbort =>
      var leaf := GetLeaf(c.nodes, at);
      k' := ChangeKeeps(env, c, k, at, step, leaf.(state := Failed), FailLeaf(c, at, status).core);
  }

  /** The gate after a failed attempt was recorded, or on re-entry of a paused leaf. */
  lemma GateKeeps(env: Env, c: Core, k: nat, at: Target, step: StepDef) returns (k': nat)
    requires LiveTree(env, c.nodes, k) && AtFrontier(env, c.nodes, k, at, step) && LeafAt(c.nodes, at) && !c.hasError
    requires GetLeaf(c.nodes, at).state.Paused?
    ensures AtWork(env, Gate(env, c, at, step).core, k') && k <= k'
  {
    hide Runnable, AtWork;
    FrontierLeaf(env, c.nodes, k, at, step);
    var leaf := GetLeaf(c.nodes, at);
    var result := Last(leaf.attempts).result.value;
    var policy := EffectivePolicy(step.onFailure);
    if policy.PromptUser? && env.Interactive() {
      k' := ChangeKeeps(env, c, k, at, step, leaf.(state := Paused), Gate(env, c, at, step).core);
    } else if policy.PromptUser? {
      k' := ActionKeeps(env, c, k, at, step, ActAbort, result, None);
    } else {
      var (action, recorded) := ResolveTerminalAction(policy, result);
      k' := ActionKeeps(env, c, k, at, step, action, recorded, None);
    }
  }

  /** The leaf as the gate leaves it does not depend on the state it found it in. */
  lemma GateIgnoresState(env: Env, c: Core, at: Target, step: StepDef, state: NodeState)
    requires LeafAt(c.nodes, at) && GetLeaf(c.nodes, at).attempts != []
    requires Last(GetLeaf(c.nodes, at).attempts).result.Some?
    ensures var nodes1 := SetLeaf(c.nodes, at, GetLeaf(c.nodes, at).(state := state));
            Gate(env, c.(nodes := nodes1), at, step) == Gate(env, c, at, step)
  {
    hide Runnable, SetLeaf;
    var leaf := GetLeaf(c.nodes, at);
    var leaf1 := leaf.(state := state);
    var e := Gate(env, c, at, step);
    SetLeafTwice(c.nodes, at, leaf1, GetLeaf(e.core.nodes, at));
  }

  lemma RunKeeps(env: Env, c: Core, k: nat, at: Target, step: StepDef) returns (k': nat)
    requires LiveTree(env, c.nodes, k) && AtFrontier(env, c.nodes, k, at, step) && LeafAt(c.nodes, at) && !c.hasError
    requires GetLeaf(c.nodes, at).state.Running? && GetLeaf(c.nodes, at).attempts != []
    ensures AtWork(env, RunAttempt(env, c, at, step).core, k') && k <= k'
  {
    hide Sound, NodeOutcomes, LoopRunningAt, Settle;
    FrontierLeaf(env, c.nodes, k, at, step);
    var leaf := GetLeaf(c.nodes, at);
    k' := k;
    if c.replies == [] { return; }
    var c2 := c.(executed := c.executed + [ExecutionOf(c.nodes, at, step)], replies := c.replies[1..]);
    if c.replies[0].Interrupt? {
      k' := ChangeKeeps(env, c2, k, at, step, leaf.(state := Cancelled), CancelLeaf(c2, at).core);
      return;
    }
    k' := RecordedKeeps(env, c2, k, at, step, c.replies[0].result);
  }

  lemma RecordedKeeps(env: Env, c: Core, k: nat, at: Target, step: StepDef, result: StepResult) returns (k': nat)
    requires LiveTree(env, c.nodes, k) && AtFrontier(env, c.nodes, k, at, step) && LeafAt(c.nodes, at) && !c.hasError
    requires GetLeaf(c.nodes, at).state.Running? && GetLeaf(c.nodes, at).attempts != []
    ensures AtWork(env, Settle(env, c, at, step, result).core, k') && k <= k'
  {
    hide AtWork, Settle, Gate, SetLeaf;
    FrontierLeaf(env, c.nodes, k, at, step);
    hide LiveTree, AtFrontier;
    var leaf := GetLeaf(c.nodes, at);
    FinishedLast(leaf.attempts, Attempt(result.attempts, Some(result)));
    var recorded := RecordResult(leaf, result);
    var paused := recorded.(state := Paused);
    if result.Ok() {
      var settled := recorded.(state := if result.status.ResultIgnored? then Ignored else Completed);
      SettleOk(env, c, at, step, result);
      k' := ChangeKeeps(env, c, k, at, step, settled, Settle(env, c, at, step, result).core);
    } else {
      SettleFailed(env, c, at, step, result);
      LeafPlaced(env, c.nodes, k, at, step, paused);
      k' := GateKeeps(env, c.(nodes := SetLeaf(c.nodes, at, paused)), k, at, step);
    }
  }

  /** Settling a result that is not a failure stores the leaf with it. */
  lemma SettleOk(env: Env, c: Core, at: Target, step: StepDef, result: StepResult)
    requires LeafAt(c.nodes, at) && GetLeaf(c.nodes, at).attempts != [] && result.Ok()
    ensures var state := if result.status.ResultIgnored? then Ignored else Completed;
            var settled := RecordResult(GetLeaf(c.nodes, at), result).(state := state);
            var e := Settle(env, c, at, step, result);
            e.core == c.(nodes := SetLeaf(c.nodes, at, settled), control := Ready)
  {
    var recorded := RecordResult(GetLeaf(c.nodes, at), result);
    var settled := recorded.(state := if result.status.ResultIgnored? then Ignored else Completed);
    SetLeafTwice(c.nodes, at, recorded, settled);
    assert WithLast(recorded.attempts, Last(recorded.attempts).(result := Some(result))) == recorded.attempts;
    hide Gate;
  }

  /** Settling a failed result is the gate on the leaf paused with that result. */
  lemma SettleFailed(env: Env, c: Core, at: Target, step: StepDef, result: StepResult)
    requires LeafAt(c.nodes, at) && GetLeaf(c.nodes, at).attempts != [] && !result.Ok()
    ensures var nodes1 := SetLeaf(c.nodes, at, RecordResult(GetLeaf(c.nodes, at), result).(state := Paused));
            Settle(env, c, at, step, result) == Gate(env, c.(nodes := nodes1), at, step)
  {
    var recorded := RecordResult(GetLeaf(c.nodes, at), result);
    SetLeafTwice(c.nodes, at, recorded, recorded.(state := Paused));
    GateIgnoresState(env, c.(nodes := SetLeaf(c.nodes, at, recorded)), at, step, Paused);
    hide Gate;
  }

  lemma SlotKeeps(env: Env, c: Core, k: nat, at: Target, step: StepDef) returns (k': nat)
    requires LiveTree(env, c.nodes, k) && AtFrontier(env, c.nodes, k, at, step) && !c.hasError
    ensures LeafAt(c.nodes, at) && RunnableLeaf(GetLeaf(c.nodes, at)) && !Terminal(GetLeaf(c.nodes, at).state)
    ensures AtWork(env, AdvanceSlot(env, c, at, step).core, k') && k <= k'
  {
    hide AtWork, LiveTree, AtFrontier, SetLeaf, RunAttempt, Gate;
    FrontierLeaf(env, c.nodes, k, at, step);
    var leaf := GetLeaf(c.nodes, at);
    if leaf.state.Paused? {
      k' := GateKeeps(env, c, k, at, step);
    } else if leaf.state.Pending? {
      k' := BeginKeeps(env, c, k, at, step, 1, None);
    } else {
      k' := RunKeeps(env, c, k, at, step);
    }
  }

  // ---- loop moves ----

  /** Replacing the frontier node. */
  lemma NodePlaced(env: Env, nodes: seq<Node>, k: nat, n: Node)
    requires AroundFrontier(env, nodes, k) && k < |nodes|
    ensures LiveNode(env, env.blueprint[k], n) ==> LiveTree(env, nodes[k := n], k)
    ensures DoneNode(env, env.blueprint[k], n) ==> LiveTree(env, nodes[k := n], k + 1)
    ensures BrokenNode(env, env.blueprint[k], n) ==> BrokenTree(env, nodes[k := n], k)
  {
    hide LiveNode, DoneNode, BrokenNode;
    if k + 1 < |nodes| {
      PlanIsLive(env, env.blueprint[k + 1]);
      assert nodes[k + 1] == PlanNode(env.blueprint[k + 1]);
    }
  }

  /** The loop the run is at. */
  predicate LoopFrontier(env: Env, nodes: seq<Node>, k: nat, loop: LoopDef) {
    LiveTree(env, nodes, k) && k < |nodes| && env.blueprint[k] == LoopItem(loop) && LoopAt(nodes, k)
  }

  lemma OpenKeeps(env: Env, c: Core, k: nat, loop: LoopDef)
    requires LoopFrontier(env, c.nodes, k, loop) && c.nodes[k].state.Pending? && !c.hasError
    ensures AtWork(env, OpenIteration(c, k).core, k)
  {
    var n := OpenIteration(c, k).core.nodes[k];
    assert c.nodes[k] == PlanNode(LoopItem(loop));
    assert Last(n.iterations) == NewIteration(loop.body, 1).(state := Running);
    assert LoopRunningAt(env, loop, n, 0);
    NodePlaced(env, c.nodes, k, n);
  }

  lemma CloseKeeps(env: Env, c: Core, k: nat, loop: LoopDef)
    requires LoopFrontier(env, c.nodes, k, loop) && !c.hasError && LoopRunningAt(env, loop, c.nodes[k], |loop.body|)
    ensures AtWork(env, CloseIteration(env, c, k).core, k)
  {
    var its := c.nodes[k].iterations;
    var n := CloseIteration(env, c, k).core.nodes[k];
    assert n.iterations[..|its| - 1] == its[..|its| - 1];
    assert forall i :: 0 <= i < |its| - 1 ==> n.iterations[i] == its[i];
    assert LoopClosed(env, loop, n);
    NodePlaced(env, c.nodes, k, n);
  }

  lemma RepeatKeeps(env: Env, c: Core, k: nat, loop: LoopDef)
    requires LoopFrontier(env, c.nodes, k, loop) && !c.hasError && LoopClosed(env, loop, c.nodes[k])
    requires Last(c.nodes[k].iterations).untilPassed == Some(false)
    requires |c.nodes[k].iterations| < IterationCeiling(c.nodes[k])
    ensures AtWork(env, RepeatIteration(c, k, loop.body, |c.nodes[k].iterations| + 1).core, k)
  {
    var its := c.nodes[k].iterations;
    var n := RepeatIteration(c, k, loop.body, |its| + 1).core.nodes[k];
    var it := NewIteration(loop.body, |its| + 1).(state := Running);
    assert n.iterations == its + [it] && Last(n.iterations) == it;
    forall i | 0 <= i < |its|
      ensures ClosedIteration(env, loop, n.iterations[i], i + 1) && n.iterations[i].untilPassed == Some(false)
    {
      assert n.iterations[i] == its[i];
      if i == |its| - 1 { assert its[i] == Last(its); }
    }
    assert LoopRunningAt(env, loop, n, 0);
    NodePlaced(env, c.nodes, k, n);
  }

  lemma FinishKeeps(env: Env, c: Core, k: nat, loop: LoopDef, failed: bool, error: bool) returns (k': nat)
    requires LoopFrontier(env, c.nodes, k, loop) && !c.hasError && LoopClosed(env, loop, c.nodes[k]) && failed == error
    requires failed ==> Exhausted(env, loop, c.nodes[k])
    requires !failed ==> Last(c.nodes[k].iterations).untilPassed == Some(true)
                         || (Exhausted(env, loop, c.nodes[k]) && !loop.onMaxIterations.Abort?)
    ensures AtWork(env, FinishLoop(c, k, failed, error).core, k') && k <= k'
  {
    var its := c.nodes[k].iterations;
    var n := FinishLoop(c, k, failed, error).core.nodes[k];
    assert WithLast(its, Last(its)) == its;
    assert n == c.nodes[k].(state := if failed then Failed else Completed);
    hide LoopHead, ClosedIteration;
    ClosedStays(env, loop, c.nodes[k], n);
    hide LoopClosed, LiveLoop;
    NodePlaced(env, c.nodes, k, n);
    k' := if failed then k else k + 1;
  }

  lemma ClosedStays(env: Env, loop: LoopDef, a: Node, b: Node)
    requires LoopClosed(env, loop, a) && b.LoopNode? && b == a.(state := b.state)
    ensures LoopClosed(env, loop, b) && (Exhausted(env, loop, a) ==> Exhausted(env, loop, b))
  {
  }

  lemma FailKeeps(env: Env, c: Core, k: nat)
    requires c.control == FailingLoop(k) && AtWork(env, c, k) && LoopAt(c.nodes, k)
    ensures AtWork(env, FinishLoop(c, k, true, false).core, k)
  {
    hide ClosedIteration, BodyAt;
    var loop := env.blueprint[k].loop;
    var its := c.nodes[k].iterations;
    var n := FinishLoop(c, k, true, false).core.nodes[k];
    var j :| 0 <= j < |loop.body| && LoopBrokenAt(env, loop, c.nodes[k], j);
    hide AroundFrontier;
    assert n.iterations[..|its| - 1] == its[..|its| - 1];
    assert forall i :: 0 <= i < |its| - 1 ==> n.iterations[i] == its[i];
    assert LoopBrokenAt(env, loop, n, j);
    NodePlaced(env, c.nodes, k, n);
  }

  lemma CeilingKeeps(env: Env, c: Core, k: nat, loop: LoopDef) returns (k': nat)
    requires LoopFrontier(env, c.nodes, k, loop) && !c.hasError && Exhausted(env, loop, c.nodes[k])
    requires c.nodes[k].state.Running? && !loop.onMaxIterations.Abort? && !loop.onMaxIterations.Continue?
    ensures AtWork(env, ResolveCeiling(env, c, k).core, k') && k <= k'
  {
    hide Runnable, IterationResults;
    k' := k;
    if !env.Interactive() {
      k' := FinishKeeps(env, c, k, loop, true, true);
    } else if c.replies != [] {
      var c1 := c.(replies := c.replies[1..]);
      if c.replies[0].Interrupt? {
        NodePlaced(env, c.nodes, k, c.nodes[k].(state := Cancelled));
      } else {
        match c.replies[0].loop
        case AnswerGrant =>
          assert LoopClosed(env, loop, GrantIterations(c1, k).core.nodes[k]);
          NodePlaced(env, c.nodes, k, GrantIterations(c1, k).core.nodes[k]);
        case AnswerContinue => k' := FinishKeeps(env, c1, k, loop, false, false);
        case AnswerAbort => k' := FinishKeeps(env, c1, k, loop, true, true);
      }
    }
  }

  lemma LoopDecisionKeeps(env: Env, c: Core, k: nat, loop: LoopDef, decision: LoopDecision) returns (k': nat)
    requires LoopFrontier(env, c.nodes, k, loop) && !c.hasError && c.nodes[k].state != Pending
    requires decision == Decide(c.nodes[k], loop.body) && !decision.AdvanceBodyStep?
    ensures AtWork(env, ApplyLoopDecision(env, c, k, loop.body, decision).core, k') && k <= k'
  {
    var n := c.nodes[k];
    hide LiveTree, ClosedIteration, RunningIteration, LoopHead, UntilHolds, AtWork;
    FrontierLoop(env, c.nodes, k, loop);
    k' := k;
    if !LoopClosed(env, loop, n) {
      var j :| 0 <= j <= |loop.body| && LoopRunningAt(env, loop, n, j);
      RunningDecides(env, loop, n, j);
      CloseKeeps(env, c, k, loop);
    } else {
      ClosedDecides(env, loop, n);
      PolicyOf(env, loop, n);
      ClosedSays(env, loop, n);
      match decision
      case RepeatNextIteration(_) => RepeatKeeps(env, c, k, loop);
      case TerminateLoopPassed => k' := FinishKeeps(env, c, k, loop, false, false);
      case TerminateLoopCeiling =>
        var failed := n.onMaxIterations.Abort?;
        k' := FinishKeeps(env, c, k, loop, failed, failed);
      case PromptCeiling => k' := CeilingKeeps(env, c, k, loop);
    }
  }

  lemma FrontierLoop(env: Env, nodes: seq<Node>, k: nat, loop: LoopDef)
    requires LoopFrontier(env, nodes, k, loop) && nodes[k].state != Pending
    ensures LoopClosed(env, loop, nodes[k])
            || exists j :: 0 <= j <= |loop.body| && LoopRunningAt(env, loop, nodes[k], j)
    ensures nodes[k].state.Running?
  {
  }

  lemma PolicyOf(env: Env, loop: LoopDef, n: Node)
    requires LoopClosed(env, loop, n)
    ensures n.onMaxIterations == loop.onMaxIterations
  {
  }

  lemma ClosedSays(env: Env, loop: LoopDef, n: Node)
    requires LoopClosed(env, loop, n)
    ensures Last(n.iterations).untilPassed == Some(true) || Last(n.iterations).untilPassed == Some(false)
  {
  }

  // ---- recovery and answers ----

  lemma RecoveredLeaf(step: StepDef, leaf: Leaf)
    requires LiveLeaf(step, leaf)
    ensures LiveLeaf(step, RecoverLeaf(leaf)) && !OpenAttempt(RecoverLeaf(leaf))
    ensures OpenAttempt(leaf) <==> leaf.state.Running?
  {
    if OpenAttempt(leaf) { FinishedLast(leaf.attempts, Last(leaf.attempts).(result := Some(InterruptedResult(leaf)))); }
  }

  lemma RecoveredBody(steps: seq<StepDef>, leaves: seq<Leaf>, j: nat)
    requires BodyAt(steps, leaves, j, false)
    ensures BodyAt(steps, RecoverLeaves(leaves), j, false)
    ensures RecoverLeaves(leaves) == if j < |steps| then leaves[j := RecoverLeaf(leaves[j])] else leaves
  {
    if j < |steps| { RecoveredLeaf(steps[j], leaves[j]); }
    forall i | 0 <= i < |leaves| && i != j
      ensures RecoverLeaf(leaves[i]) == leaves[i]
    {
      if i < j { assert DoneLeaf(steps[i], leaves[i]); }
      if i > j { assert leaves[i] == PendingLeaf(steps[i]); }
    }
  }

  lemma RecoveredDone(steps: seq<StepDef>, it: Iteration)
    requires |it.steps| == |steps| && forall i :: 0 <= i < |it.steps| ==> DoneLeaf(steps[i], it.steps[i])
    ensures RecoverIteration(it) == it
  {
    assert forall i :: 0 <= i < |it.steps| ==> DoneLeaf(steps[i], it.steps[i]);
    assert RecoverLeaves(it.steps) == it.steps;
  }

  lemma RecoveredClosed(env: Env, loop: LoopDef, n: Node)
    requires LoopClosed(env, loop, n)
    ensures RecoverNode(n) == n
  {
    hide UntilHolds, DoneLeaf;
    forall i | 0 <= i < |n.iterations|
      ensures RecoverIteration(n.iterations[i]) == n.iterations[i]
    {
      assert ClosedIteration(env, loop, n.iterations[i], i + 1);
      RecoveredDone(loop.body, n.iterations[i]);
    }
    assert RecoverIterations(n.iterations) == n.iterations;
  }

  lemma RecoveredRunning(env: Env, loop: LoopDef, n: Node, j: nat)
    requires LoopRunningAt(env, loop, n, j)
    ensures LoopRunningAt(env, loop, RecoverNode(n), j)
    ensures RecoverNode(n) == n.(iterations := WithLast(n.iterations, RecoverIteration(Last(n.iterations))))
  {
    hide UntilHolds, DoneLeaf;
    var its := n.iterations;
    forall i | 0 <= i < |its| - 1
      ensures RecoverIteration(its[i]) == its[i]
    {
      assert ClosedIteration(env, loop, its[i], i + 1);
      RecoveredDone(loop.body, its[i]);
    }
    RecoveredBody(loop.body, Last(its).steps, j);
    assert RecoverIterations(its) == WithLast(its, RecoverIteration(Last(its)));
  }

  lemma RecoveredPlan(d: Definition)
    ensures RecoverNode(PlanNode(d)) == PlanNode(d)
  {
    if d.LoopItem? {
      var it := NewIteration(d.loop.body, 1);
      assert RecoverLeaves(it.steps) == it.steps;
      assert RecoverIterations([it]) == [it];
    }
  }

  /** Recovery keeps the frontier where it is, and only touches the leaf there. */
  lemma RecoveredTree(env: Env, nodes: seq<Node>, k: nat)
    requires LiveTree(env, nodes, k)
    ensures LiveTree(env, Recover(nodes), k)
    ensures k < |nodes| ==> Recover(nodes) == nodes[k := RecoverNode(nodes[k])]
    ensures k == |nodes| ==> Recover(nodes) == nodes
  {
    forall i | 0 <= i < |nodes| && i != k
      ensures RecoverNode(nodes[i]) == nodes[i]
    {
      if i > k {
        RecoveredPlan(env.blueprint[i]);
      } else if env.blueprint[i].LoopItem? {
        RecoveredClosed(env, env.blueprint[i].loop, nodes[i]);
      }
    }
    if k < |nodes| {
      RecoveredLive(env, env.blueprint[k], nodes[k]);
      NodePlaced(env, nodes, k, RecoverNode(nodes[k]));
    }
  }

  lemma RecoveredLive(env: Env, d: Definition, n: Node)
    requires LiveNode(env, d, n)
    ensures LiveNode(env, d, RecoverNode(n))
  {
    hide LoopHead, ClosedIteration, RunningIteration;
    match d
    case StepItem(step) => RecoveredLeaf(step, n.leaf);
    case LoopItem(loop) =>
      if n == PlanNode(d) {
        RecoveredPlan(d);
      } else if LoopClosed(env, loop, n) {
        RecoveredClosed(env, loop, n);
      } else {
        var j :| 0 <= j <= |loop.body| && LoopRunningAt(env, loop, n, j);
        RecoveredRunning(env, loop, n, j);
        assert RecoverNode(n).state == n.state;
      }
  }

  lemma AnswerKeeps(env: Env, c: Core, k: nat, at: Target) returns (k': nat)
    requires c.control == Prompting(at) && AtWork(env, c, k) && ControlFits(c)
    ensures AtWork(env, AnswerPrompt(env, c, at).core, k') && k <= k'
  {
    var step :| PromptOpen(env, c.nodes, k, at, step);
    FrontierLeaf(env, c.nodes, k, at, step);
    k' := k;
    if c.replies != [] && !c.replies[0].Interrupt? {
      var (action, recorded) := ApplyPromptDecision(c.replies[0].step,
                                                    Last(GetLeaf(c.nodes, at).attempts).result.value);
      k' := ActionKeeps(env, c.(replies := c.replies[1..]), k, at, step, action, recorded, Some(RunRunning));
    }
  }

  lemma MoveKeeps(env: Env, c: Core, k: nat) returns (k': nat)
    requires Resolvable(env.blueprint) && AtWork(env, c, k) && c.control.Ready? && Runnable(env.blueprint, c.nodes)
    ensures AtWork(env, ApplyMove(env, c).core, k') && k <= k'
  {
    hide Runnable, AdvanceSlot, ApplyLoopDecision, OpenIteration, SelectMove, FirstLive, Decide;
    FrontierSelects(env, c.nodes, k);
    FrontierIsNext(env, c.nodes, k);
    k' := k;
    match SelectMove(env.blueprint, c.nodes)
    case AllTerminal =>
    case NoDefinition => assert false;
    case RunSlot(at, step) =>
      SlotAtFrontier(env, c.nodes, k, at, step);
      k' := SlotKeeps(env, c, k, at, step);
    case OpenLoop(pos) => OpenKeeps(env, c, k, env.blueprint[k].loop);
    case LoopMove(pos, _, decision) =>
      k' := LoopDecisionKeeps(env, c, k, env.blueprint[k].loop, decision);
  }

  lemma AtWorkSound(env: Env, c: Core, k: nat)
    requires Resolvable(env.blueprint) && AtWork(env, c, k)
    ensures Sound(env, c)
  {
    TreeRunnable(env, c.nodes, k);
    if c.control.Prompting? {
      var step :| PromptOpen(env, c.nodes, k, c.control.at, step);
      FrontierLeaf(env, c.nodes, k, c.control.at, step);
    }
  }

  /** The invariant: whatever is committed next again has a frontier, at or after this one. */
  lemma ProposeKeeps(env: Env, c: Core, k: nat) returns (k': nat)
    requires Resolvable(env.blueprint) && AtWork(env, c, k)
    ensures Sound(env, c) && AtWork(env, Next(env, c), k') && k <= k'
  {
    hide Runnable, ApplyMove;
    AtWorkSound(env, c, k);
    k' := k;
    match c.control
    case Halted(_) =>
    case Starting => RecoveredTree(env, c.nodes, k);
    case Prompting(at) => k' := AnswerKeeps(env, c, k, at);
    case FailingLoop(pos) => FailKeeps(env, c, k);
    case Ready => k' := MoveKeeps(env, c, k);
  }

  lemma {:induction false} StepsKeep(env: Env, c: Core, k: nat, n: nat) returns (k': nat)
    requires Resolvable(env.blueprint) && AtWork(env, c, k)
    ensures Sound(env, c) && AtWork(env, Steps(env, c, n), k') && k <= k'
    decreases n
  {
    hide AtWork, Next, Sound;
    k' := ProposeKeeps(env, c, k);
    if n == 0 { return k; }
    k' := StepsKeep(env, Next(env, c), k', n - 1);
  }

  lemma LoadedAtWork(env: Env, nodes: seq<Node>, replies: seq<Reply>, k: nat)
    requires LiveTree(env, nodes, k)
    ensures AtWork(env, Loaded(nodes, replies), k)
  {
    hide LiveTree;
  }

  lemma PlanLive(env: Env)
    ensures LiveTree(env, PlanNodes(env.blueprint), 0)
  {
    if env.blueprint != [] { PlanIsLive(env, env.blueprint[0]); }
  }
}
