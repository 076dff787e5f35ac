/** What follows for every tree a coordinator commits: one leaf in progress, well-formed loops, sound outcomes,
    results that are only ever appended. */
module Guarantees {
  import opened StateModels
  import opened LoopPolicy
  import opened Projection
  import opened Transitions
  import opened Solo
  import opened Refinement
  import opened PlanRefinement
  import opened Moves
  import opened Frontier

  /** A tree some run of this blueprint has committed. */
  predicate Committed(env: Env, nodes: seq<Node>, k: nat) {
    LiveTree(env, nodes, k) || BrokenTree(env, nodes, k)
  }

  predicate Active(leaf: Leaf) {
    leaf.state.Running? || leaf.state.Paused?
  }

  // ---- leaves ----

  /** Running means the last attempt is open, pending that there is none, and paused, completed, ignored and failed that
      there is a last one and it has a result. */
  predicate WellRecorded(leaf: Leaf) {
    && (leaf.state.Running? ==> LastOpen(leaf.attempts))
    && (leaf.state.Paused? || Settled(leaf.state) || leaf.state.Failed? ==>
          leaf.attempts != [] && AllFinished(leaf.attempts))
    && (leaf.state.Pending? ==> leaf.attempts == [])
  }

  lemma BodyLeafRecorded(steps: seq<StepDef>, leaves: seq<Leaf>, j: nat, broken: bool, i: nat)
    requires BodyAt(steps, leaves, j, broken) && i < |leaves|
    ensures WellRecorded(leaves[i])
    ensures Active(leaves[i]) ==> i == j
    ensures leaves[i].state.Failed? ==> broken
  {
    if i < j { assert DoneLeaf(steps[i], leaves[i]); }
    if i > j { assert leaves[i] == PendingLeaf(steps[i]); }
  }

  lemma ClosedLeafRecorded(env: Env, loop: LoopDef, it: Iteration, number: nat, i: nat)
    requires ClosedIteration(env, loop, it, number) && i < |it.steps|
    ensures WellRecorded(it.steps[i]) && Settled(it.steps[i].state)
  {
    assert DoneLeaf(loop.body[i], it.steps[i]);
  }

  lemma LoopLeafRecorded(env: Env, loop: LoopDef, n: Node, i: nat, j: nat)
    requires DoneLoop(env, loop, n) || LiveLoop(env, loop, n) || BrokenLoop(env, loop, n)
    requires n.LoopNode? && i < |n.iterations| && j < |n.iterations[i].steps|
    ensures WellRecorded(n.iterations[i].steps[j])
    ensures Active(n.iterations[i].steps[j]) ==> i == |n.iterations| - 1 && !DoneLoop(env, loop, n)
    ensures n.iterations[i].steps[j].state.Failed? ==> !DoneLoop(env, loop, n) && !LiveLoop(env, loop, n)
  {
    hide UntilHolds, WellRecorded;
    if n == PlanNode(LoopItem(loop)) {
      assert n.iterations[i].steps[j] == PendingLeaf(loop.body[j]);
      PendingRecorded(loop.body[j]);
    } else if i < |n.iterations| - 1 {
      ClosedLeafRecorded(env, loop, n.iterations[i], i + 1, j);
    } else if LoopClosed(env, loop, n) {
      ClosedLeafRecorded(env, loop, n.iterations[i], i + 1, j);
    } else if l :| 0 <= l <= |loop.body| && LoopRunningAt(env, loop, n, l) {
      BodyLeafRecorded(loop.body, n.iterations[i].steps, l, false, j);
    } else {
      var l :| 0 <= l < |loop.body| && LoopBrokenAt(env, loop, n, l);
      BodyLeafRecorded(loop.body, n.iterations[i].steps, l, true, j);
    }
  }

  lemma PendingRecorded(step: StepDef)
    ensures WellRecorded(PendingLeaf(step)) && !Active(PendingLeaf(step)) && !PendingLeaf(step).state.Failed?
  {
  }

  lemma PlanInactive(loop: LoopDef, j: nat)
    requires j < |loop.body|
    ensures !Active(Last(PlanNode(LoopItem(loop)).iterations).steps[j])
  {
  }

  /** Two active leaves of one running loop are the same leaf. */
  lemma LoopOneActive(env: Env, loop: LoopDef, n: Node, j: nat, l: nat)
    requires LiveLoop(env, loop, n) || BrokenLoop(env, loop, n)
    requires n.LoopNode? && n.iterations != [] && j < |Last(n.iterations).steps| && l < |Last(n.iterations).steps|
    requires Active(Last(n.iterations).steps[j]) && Active(Last(n.iterations).steps[l])
    ensures j == l
  {
    hide UntilHolds, WellRecorded;
    if n == PlanNode(LoopItem(loop)) {
      PlanInactive(loop, j);
    } else if LoopClosed(env, loop, n) {
      ClosedLeafRecorded(env, loop, Last(n.iterations), |n.iterations|, j);
    } else if i :| 0 <= i <= |loop.body| && LoopRunningAt(env, loop, n, i) {
      BodyLeafRecorded(loop.body, Last(n.iterations).steps, i, false, j);
      BodyLeafRecorded(loop.body, Last(n.iterations).steps, i, false, l);
    } else {
      var i :| 0 <= i < |loop.body| && LoopBrokenAt(env, loop, n, i);
      BodyLeafRecorded(loop.body, Last(n.iterations).steps, i, true, j);
      BodyLeafRecorded(loop.body, Last(n.iterations).steps, i, true, l);
    }
  }

  /** Every leaf of a committed tree is recorded consistently, and only the frontier node has an active one. */
  lemma LeafRecorded(env: Env, nodes: seq<Node>, k: nat, p: Place)
    requires Committed(env, nodes, k) && HasLeaf(nodes, p)
    ensures WellRecorded(LeafOf(nodes, p))
    ensures Active(LeafOf(nodes, p)) ==> p.pos == k && (p.BodyPlace? ==> p.iteration == |nodes[k].iterations| - 1)
    ensures LeafOf(nodes, p).state.Failed? ==> !LiveTree(env, nodes, k)
  {
    hide DoneLoop, LiveLoop, BrokenLoop;
    var d := env.blueprint[p.pos];
    if p.pos > k { PlanIsLive(env, d); }
    if d.LoopItem? {
      IsLoop(env, d.loop, nodes[p.pos]);
      LoopLeafRecorded(env, d.loop, nodes[p.pos], p.iteration, p.index);
      if p.pos > k {
        assert LeafOf(nodes, p) == PendingLeaf(d.loop.body[p.index]);
      }
    }
  }

  lemma IsLoop(env: Env, loop: LoopDef, n: Node)
    requires DoneLoop(env, loop, n) || LiveLoop(env, loop, n) || BrokenLoop(env, loop, n)
    ensures n.LoopNode? && n.iterations != []
  {
  }

  /** At most one leaf of a committed tree is running or paused. */
  lemma OneActiveLeaf(env: Env, nodes: seq<Node>, k: nat, p: Place, q: Place)
    requires Committed(env, nodes, k) && HasLeaf(nodes, p) && HasLeaf(nodes, q)
    requires Active(LeafOf(nodes, p)) && Active(LeafOf(nodes, q))
    ensures p == q
  {
    hide DoneLoop, LiveLoop, BrokenLoop, Active;
    LeafRecorded(env, nodes, k, p);
    LeafRecorded(env, nodes, k, q);
    var d := env.blueprint[k];
    if d.LoopItem? {
      IsLoop(env, d.loop, nodes[k]);
      LoopOneActive(env, d.loop, nodes[k], p.index, q.index);
    }
  }

  // ---- loops ----

  /** Iterations are numbered 1..n within the ceiling, earlier ones were closed unmet, and whatever until_passed says
      is what the conditions say of that iteration's own results. */
  predicate WellLooped(env: Env, n: Node)
    requires n.LoopNode?
  {
    && (|n.iterations| <= 1 || |n.iterations| <= IterationCeiling(n)) && n.granted % CEILING_GRANT_COUNT == 0
    && (forall i :: 0 <= i < |n.iterations| ==> n.iterations[i].number == i + 1)
    && (forall i :: 0 <= i < |n.iterations| - 1 ==>
          n.iterations[i].state.Completed? && n.iterations[i].untilPassed == Some(false))
    && (forall i :: 0 <= i < |n.iterations| && n.iterations[i].untilPassed.Some? ==>
          n.iterations[i].untilPassed.value
          == UntilHolds(env.holds, n.until, n.iterations[i].number, IterationResults(n.iterations[i].steps)))
  }

  lemma LoopsWellFormed(env: Env, nodes: seq<Node>, k: nat, pos: nat)
    requires Committed(env, nodes, k) && pos < |nodes| && nodes[pos].LoopNode?
    ensures WellLooped(env, nodes[pos])
  {
    hide UntilHolds, BodyAt, DoneLeaf;
    var d := env.blueprint[pos];
    if pos > k { PlanIsLive(env, d); }
    var loop := d.loop;
    var n := nodes[pos];
    forall i | 0 <= i < |n.iterations|
      ensures n.iterations[i].number == i + 1
      ensures n.iterations[i].untilPassed.Some? ==>
                n.iterations[i].untilPassed.value
                == UntilHolds(env.holds, n.until, n.iterations[i].number, IterationResults(n.iterations[i].steps))
    {
      if n == PlanNode(d) {
      } else if i < |n.iterations| - 1 {
        assert ClosedIteration(env, loop, n.iterations[i], i + 1);
      }
    }
  }

  lemma AtWorkCommits(env: Env, c: Core, k: nat)
    requires AtWork(env, c, k)
    ensures Committed(env, c.nodes, k)
  {
    hide LiveTree, BrokenTree;
  }

  // ---- how runs end ----

  ghost predicate AllSettled(nodes: seq<Node>) {
    && (forall i :: 0 <= i < |nodes| ==> Settled(NodeStateOf(nodes[i])))
    && (forall i: nat, j: nat, l: nat :: HasLeaf(nodes, BodyPlace(i, j, l)) ==>
          Settled(nodes[i].iterations[j].steps[l].state))
  }

  lemma CompletedIsSettled(env: Env, nodes: seq<Node>)
    requires LiveTree(env, nodes, |nodes|)
    ensures AllSettled(nodes)
  {
    hide UntilHolds;
    forall i: nat, j: nat, l: nat | HasLeaf(nodes, BodyPlace(i, j, l))
      ensures Settled(nodes[i].iterations[j].steps[l].state)
    {
      var loop := env.blueprint[i].loop;
      assert ClosedIteration(env, loop, nodes[i].iterations[j], j + 1);
      ClosedLeafRecorded(env, loop, nodes[i].iterations[j], j + 1, l);
    }
    forall i | 0 <= i < |nodes|
      ensures Settled(NodeStateOf(nodes[i]))
    {
      assert DoneNode(env, env.blueprint[i], nodes[i]);
    }
  }

  // ---- outcomes are append-only ----

  lemma LoopOutcomesSame(a: Node, b: Node)
    requires LoopGrows(a, b)
    ensures NodeOutcomes(b) == NodeOutcomes(a)
  {
    var n := |a.iterations|;
    IterationsOutcomesSame(a.iterations, b.iterations[..n]);
    if |b.iterations| > n {
      UntouchedSilent(Last(b.iterations).steps);
    } else {
      assert b.iterations[..n] == b.iterations;
    }
  }

  lemma {:induction false} IterationsOutcomesSame(a: seq<Iteration>, b: seq<Iteration>)
    requires |a| == |b| && forall i :: 0 <= i < |a| ==> b[i].steps == a[i].steps
    ensures IterationsOutcomes(a) == IterationsOutcomes(b)
  {
    if a != [] { IterationsOutcomesSame(a[..|a| - 1], b[..|b| - 1]); }
  }

  lemma {:induction false} UntouchedSilent(leaves: seq<Leaf>)
    requires forall i :: 0 <= i < |leaves| ==> leaves[i].state.Pending?
    ensures LeavesOutcomes(leaves) == []
  {
    if leaves != [] { UntouchedSilent(leaves[..|leaves| - 1]); }
  }

  lemma BodySilentAfter(steps: seq<StepDef>, leaves: seq<Leaf>, j: nat, leaf: Leaf)
    requires BodyAt(steps, leaves, j, false) && j < |steps|
    ensures LeavesOutcomes(leaves[j := leaf]) == LeavesOutcomes(leaves) + LeafOutcomes(leaf)
  {
    var rest := leaves[j + 1..];
    UntouchedSilent(rest);
    LiveSilent(steps[j], leaves[j]);
    hide LeavesOutcomes, LeafOutcomes;
    LeavesAround(leaves, j, leaves[j]);
    LeavesAround(leaves, j, leaf);
    assert leaves[j := leaves[j]] == leaves;
  }

  lemma LeavesAround(leaves: seq<Leaf>, j: nat, leaf: Leaf)
    requires j < |leaves| && LeavesOutcomes(leaves[j + 1..]) == []
    ensures LeavesOutcomes(leaves[j := leaf]) == LeavesOutcomes(leaves[..j]) + LeafOutcomes(leaf)
  {
    hide LeavesOutcomes, LeafOutcomes;
    assert leaves[j := leaf] == leaves[..j] + [leaf] + leaves[j + 1..];
    LeavesOutcomesConcat(leaves[..j] + [leaf], leaves[j + 1..]);
    LeavesOutcomesLast(leaves[..j], leaf);
  }

  lemma LeafOutcomesAre(leaf: Leaf)
    ensures LeafOutcomes(leaf)
         == if Ended(leaf) then [Outcome(leaf.name, Last(leaf.attempts).result.value)] else []
  {
  }

  /** A change at the frontier appends that leaf's outcome to those of the whole tree. */
  lemma FrontierAppends(env: Env, nodes: seq<Node>, k: nat, at: Target, step: StepDef, leaf: Leaf)
    requires LiveTree(env, nodes, k) && AtFrontier(env, nodes, k, at, step) && LeafAt(nodes, at)
    ensures Outcomes(SetLeaf(nodes, at, leaf)) == Outcomes(nodes) + LeafOutcomes(leaf)
    ensures LeafOutcomes(leaf)
         == if Ended(leaf) then [Outcome(leaf.name, Last(leaf.attempts).result.value)] else []
  {
    hide LoopHead, DoneNode, LeafOutcomes, IterationsOutcomes, Outcomes, ClosedIteration, RunningIteration, LiveLeaf;
    hide SetLeaf;
    LeafOutcomesAre(leaf);
    FrontierLeaf(env, nodes, k, at, step);
    var r := SetLeaf(nodes, at, leaf);
    assert r == nodes[k := r[k]];
    FrontierSplits(env, nodes, k, r[k]);
    hide LiveTree;
    if at.Body? {
      BodyAppends(env, env.blueprint[k].loop, nodes, k, at.index, leaf);
    } else {
      LiveSilent(step, nodes[k].leaf);
    }
  }

  lemma BodyAppends(env: Env, loop: LoopDef, nodes: seq<Node>, k: nat, j: nat, leaf: Leaf)
    requires k < |nodes| && LoopRunningAt(env, loop, nodes[k], j) && j < |loop.body| && LeafAt(nodes, Body(k, j))
    ensures NodeOutcomes(SetLeaf(nodes, Body(k, j), leaf)[k]) == NodeOutcomes(nodes[k]) + LeafOutcomes(leaf)
  {
    hide LoopHead, LeafOutcomes, LeavesOutcomes;
    var its := nodes[k].iterations;
    var r := SetLeaf(nodes, Body(k, j), leaf);
    BodySilentAfter(loop.body, Last(its).steps, j, leaf);
    assert r[k].iterations[..|its| - 1] == its[..|its| - 1];
    assert Last(r[k].iterations).steps == Last(its).steps[j := leaf];
  }

  lemma LiveSilent(step: StepDef, leaf: Leaf)
    requires LiveLeaf(step, leaf)
    ensures LeafOutcomes(leaf) == []
  {
  }

  lemma FrontierSplits(env: Env, nodes: seq<Node>, k: nat, n: Node)
    requires AroundFrontier(env, nodes, k) && k < |nodes|
    ensures Outcomes(nodes) == Outcomes(nodes[..k]) + NodeOutcomes(nodes[k])
    ensures Outcomes(nodes[k := n]) == Outcomes(nodes[..k]) + NodeOutcomes(n)
  {
    hide DoneNode, NodeOutcomes;
    forall i | k < i < |nodes|
      ensures NodeOutcomes(nodes[i]) == []
    {
      PlanNodeSilent(env.blueprint[i]);
    }
    OutcomesSplit(nodes, k);
    OutcomesSplit(nodes[k := n], k);
    assert nodes[k := n][..k] == nodes[..k];
  }

  /** Each commit only appends to the flattened results. */
  lemma NextAppends(env: Env, c: Core, k: nat)
    requires Resolvable(env.blueprint) && AtWork(env, c, k)
    ensures Sound(env, c) && Outcomes(c.nodes) <= Outcomes(Next(env, c).nodes)
  {
    AtWorkSound(env, c, k);
    var change := ProposeChanges(env, c);
    hide Propose, Outcomes, LiveTree, BrokenTree;
    match change
    case Same =>
    case Recovered => RecoveredOutcomes(env, c.nodes, k);
    case LoopChange(pos, node) =>
      LoopOutcomesSame(c.nodes[pos], node);
      OutcomesSame(c.nodes, pos, node);
    case LeafChange(at, leaf) =>
      var step :| AtFrontier(env, c.nodes, k, at, step) by {
        if c.control.Ready? {
          SlotAtFrontier(env, c.nodes, k, at, SelectMove(env.blueprint, c.nodes).step);
        } else {
          var step :| PromptOpen(env, c.nodes, k, at, step);
        }
      }
      FrontierAppends(env, c.nodes, k, at, step, leaf);
  }

  // ---- what the flattened results of a live tree are ----

  lemma {:induction false} IterationLeafPlaced(its: seq<Iteration>, i: nat) returns (j: nat, l: nat)
    requires i < |IterationsLeaves(its)|
    ensures j < |its| && l < |its[j].steps| && its[j].steps[l] == IterationsLeaves(its)[i]
  {
    var earlier := IterationsLeaves(its[..|its| - 1]);
    if i < |earlier| {
      j, l := IterationLeafPlaced(its[..|its| - 1], i);
    } else {
      j, l := |its| - 1, i - |earlier|;
    }
  }

  lemma {:induction false} LeafPlaced(nodes: seq<Node>, i: nat) returns (p: Place)
    requires i < |TreeLeaves(nodes)|
    ensures HasLeaf(nodes, p) && LeafOf(nodes, p) == TreeLeaves(nodes)[i]
  {
    var n := |nodes| - 1;
    var earlier := TreeLeaves(nodes[..n]);
    if i < |earlier| {
      p := LeafPlaced(nodes[..n], i);
    } else if nodes[n].StepNode? {
      p := StepPlace(n);
    } else {
      var j, l := IterationLeafPlaced(nodes[n].iterations, i - |earlier|);
      p := BodyPlace(n, j, l);
    }
  }

  /** In a tree a run goes on from, the flattened results are one entry for each leaf that completed or was ignored, in
      tree order: its name and the result of its last attempt. */
  lemma LiveEndings(env: Env, nodes: seq<Node>, k: nat)
    requires LiveTree(env, nodes, k)
    ensures Outcomes(nodes) == Endings(TreeLeaves(nodes))
    ensures forall i :: 0 <= i < |TreeLeaves(nodes)| ==>
              (Ended(TreeLeaves(nodes)[i]) <==> Settled(TreeLeaves(nodes)[i].state))
  {
    hide LiveTree, Outcomes, Endings, TreeLeaves;
    OutcomesAre(nodes);
    forall i | 0 <= i < |TreeLeaves(nodes)|
      ensures Ended(TreeLeaves(nodes)[i]) <==> Settled(TreeLeaves(nodes)[i].state)
    {
      var p := LeafPlaced(nodes, i);
      LeafRecorded(env, nodes, k, p);
    }
  }

  lemma RecoveredOutcomes(env: Env, nodes: seq<Node>, k: nat)
    requires LiveTree(env, nodes, k)
    ensures Outcomes(Recover(nodes)) == Outcomes(nodes)
  {
    RecoveredTree(env, nodes, k);
    if k < |nodes| {
      hide DoneNode, NodeOutcomes;
      RecoveredNodeOutcomes(nodes[k]);
      OutcomesSame(nodes, k, RecoverNode(nodes[k]));
    }
  }

  lemma RecoveredNodeOutcomes(n: Node)
    ensures NodeOutcomes(RecoverNode(n)) == NodeOutcomes(n)
  {
    if n.LoopNode? { RecoveredIterationsOutcomes(n.iterations); }
  }

  lemma {:induction false} RecoveredIterationsOutcomes(its: seq<Iteration>)
    ensures IterationsOutcomes(RecoverIterations(its)) == IterationsOutcomes(its)
  {
    hide LeavesOutcomes, RecoverLeaves;
    if its != [] {
      RecoveredIterationsOutcomes(its[..|its| - 1]);
      RecoveredLeavesOutcomes(Last(its).steps);
      assert RecoverIterations(its)[..|its| - 1] == RecoverIterations(its[..|its| - 1]);
    }
  }

  lemma RecoveredLeafOutcomes(leaf: Leaf)
    ensures LeafOutcomes(RecoverLeaf(leaf)) == LeafOutcomes(leaf)
  {
  }

  lemma {:induction false} RecoveredLeavesOutcomes(leaves: seq<Leaf>)
    ensures LeavesOutcomes(RecoverLeaves(leaves)) == LeavesOutcomes(leaves)
  {
    hide LeafOutcomes, RecoverLeaf;
    if leaves != [] {
      RecoveredLeavesOutcomes(leaves[..|leaves| - 1]);
      RecoveredLeafOutcomes(Last(leaves));
      assert RecoverLeaves(leaves)[..|leaves| - 1] == RecoverLeaves(leaves[..|leaves| - 1]);
    }
  }

  /** What every attempt was given is still the beginning of the results at any later time. */
  predicate GivenPast(c: Core) {
    forall i :: 0 <= i < |c.executed| ==> c.executed[i].steps <= Numbered(Outcomes(c.nodes))
  }

  lemma NumberedPrefix(a: seq<Outcome>, b: seq<Outcome>)
    requires a <= b
    ensures Numbered(a) <= Numbered(b)
  {
  }

  /** What an attempt is given: the endings of all leaves before it, numbered from 1. */
  lemma NextExecuted(env: Env, c: Core)
    requires Sound(env, c)
    ensures Outcomes(c.nodes) == Endings(TreeLeaves(c.nodes))
    ensures Next(env, c).executed == c.executed
            || (|Next(env, c).executed| == |c.executed| + 1 && Next(env, c).executed[..|c.executed|] == c.executed
                && Last(Next(env, c).executed).steps == Numbered(Endings(TreeLeaves(c.nodes))))
  {
    hide Runnable, Outcomes, UntilHolds, SelectMove, AdvanceSlot, Endings, TreeLeaves;
    OutcomesAre(c.nodes);
    if c.control.Ready? {
      var move := SelectMove(env.blueprint, c.nodes);
      if move.RunSlot? {
        SlotSelected(env, c.nodes, move.at, move.step);
        SlotExecuted(env, c, move.at, move.step);
      }
    } else {
      hide ApplyMove;
    }
  }

  lemma SlotExecuted(env: Env, c: Core, at: Target, step: StepDef)
    requires LeafAt(c.nodes, at) && RunnableLeaf(GetLeaf(c.nodes, at)) && !Terminal(GetLeaf(c.nodes, at).state)
    ensures var r := AdvanceSlot(env, c, at, step).core;
            r.executed
            == if GetLeaf(c.nodes, at).state.Running? then c.executed + [ExecutionOf(c.nodes, at, step)] else c.executed
  {
    hide SetLeaf, Gate, Outcomes, Numbered;
    var leaf := GetLeaf(c.nodes, at);
    GateExecuted(env, c, at, step);
    if leaf.state.Running? && c.replies != [] && !c.replies[0].Interrupt? {
      var c2 := c.(executed := c.executed + [ExecutionOf(c.nodes, at, step)], replies := c.replies[1..]);
      GateExecuted(env, c2.(nodes := SetLeaf(c.nodes, at, RecordResult(leaf, c.replies[0].result))), at, step);
    }
  }

  lemma GateExecuted(env: Env, c: Core, at: Target, step: StepDef)
    requires LeafAt(c.nodes, at)
    ensures Gate(env, c, at, step).core.executed == c.executed
  {
    hide SetLeaf;
  }

  lemma PrefixTrans<T>(a: seq<T>, b: seq<T>, c: seq<T>)
    requires a <= b <= c
    ensures a <= c
  {
  }

  lemma GivenStays(a: Core, b: Core)
    requires GivenPast(a) && Outcomes(a.nodes) <= Outcomes(b.nodes)
    requires b.executed == a.executed
             || (|b.executed| == |a.executed| + 1 && b.executed[..|a.executed|] == a.executed
                 && Last(b.executed).steps == Numbered(Outcomes(a.nodes)))
    ensures GivenPast(b)
  {
    hide Outcomes, Numbered;
    var before, after := Numbered(Outcomes(a.nodes)), Numbered(Outcomes(b.nodes));
    NumberedPrefix(Outcomes(a.nodes), Outcomes(b.nodes));
    forall i | 0 <= i < |b.executed|
      ensures b.executed[i].steps <= after
    {
      if i < |a.executed| {
        assert b.executed[i] == a.executed[i];
        PrefixTrans(a.executed[i].steps, before, after);
      }
    }
  }

  lemma {:induction false} RunsAppend(env: Env, c: Core, k: nat, n: nat)
    requires Resolvable(env.blueprint) && AtWork(env, c, k) && GivenPast(c)
    ensures Sound(env, c)
    ensures Outcomes(c.nodes) <= Outcomes(Steps(env, c, n).nodes) && GivenPast(Steps(env, c, n))
    decreases n
  {
    hide Outcomes, AtWork, Next, GivenPast, Sound;
    AtWorkSound(env, c, k);
    if n > 0 {
      var c1 := Next(env, c);
      NextAppends(env, c, k);
      NextExecuted(env, c);
      GivenStays(c, c1);
      var k1 := ProposeKeeps(env, c, k);
      RunsAppend(env, c1, k1, n - 1);
    }
  }
}
