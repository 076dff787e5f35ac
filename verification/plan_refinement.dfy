/** Loops and whole plans: the coordinator's run of a fresh plan is the interpreter's run of the blueprint. */
module PlanRefinement {
  import opened StateModels
  import opened LoopPolicy
  import opened Projection
  import opened Transitions
  import opened Solo
  import opened Interpreter
  import opened Refinement

  // ---- outcomes of partly run trees ----

  /** Nothing after position pos has produced an outcome. */
  predicate SilentAfter(nodes: seq<Node>, pos: nat) {
    forall i :: pos < i < |nodes| ==> NodeOutcomes(nodes[i]) == []
  }

  lemma {:induction false} OutcomesSplit(nodes: seq<Node>, pos: nat)
    requires pos < |nodes| && SilentAfter(nodes, pos)
    ensures Outcomes(nodes) == Outcomes(nodes[..pos]) + NodeOutcomes(nodes[pos])
  {
    hide NodeOutcomes;
    var k := |nodes| - 1;
    if pos == k {
    } else {
      assert NodeOutcomes(nodes[k]) == [];
      assert SilentAfter(nodes[..k], pos);
      assert nodes[..k][..pos] == nodes[..pos];
      OutcomesSplit(nodes[..k], pos);
    }
  }

  lemma {:induction false} PendingSilent(steps: seq<StepDef>)
    ensures LeavesOutcomes(PendingLeaves(steps)) == []
  {
    if steps != [] {
      assert PendingLeaves(steps)[..|steps| - 1] == PendingLeaves(steps[..|steps| - 1]);
      PendingSilent(steps[..|steps| - 1]);
    }
  }

  lemma PlanNodeSilent(d: Definition)
    ensures NodeOutcomes(PlanNode(d)) == []
  {
    if d.LoopItem? {
      PendingSilent(d.loop.body);
      var its := [NewIteration(d.loop.body, 1)];
      assert its[..|its| - 1] == [];
      assert IterationsOutcomes(its) == IterationsOutcomes([]) + LeavesOutcomes(Last(its).steps);
    }
  }

  // ---- what the interpreter leaves behind ----

  lemma {:induction false} RunStepSettles(env: Env, step: StepDef, spot: Spot, earlier: seq<Attempt>,
                                          number: nat, history: seq<Outcome>, w: World)
    ensures var run := RunStep(env, step, spot, earlier, number, history, w);
            && (run.end.Onward? ==> Settled(run.leaf.state))
            && run.end != StopWith(Returned(RunCompleted))
    decreases |w.replies|
  {
    if w.replies != [] && w.replies[0].Reply? && w.replies[0].result.status.ResultFailed? {
      var result := w.replies[0].result;
      var rest := w.replies[1..];
      if rest != [] && rest[0].Reply? && rest[0].step.DecideRetry? {
        var w1 := World(rest[1..], w.executed + [Execution(step, spot, number, Numbered(history))]);
        RunStepSettles(env, step, spot, earlier + [Attempt(result.attempts, Some(result))], result.attempts + 1,
                       history, w1);
      }
    }
  }

  lemma {:induction false} RunBodySettles(env: Env, steps: seq<StepDef>, pos: nat, index: nat, number: nat,
                                          history: seq<Outcome>, w: World)
    ensures var run := RunBody(env, steps, pos, index, number, history, w);
            && |run.leaves| == |steps| && run.end != StopWith(Returned(RunCompleted))
            && (run.end.Onward? ==> forall i :: 0 <= i < |run.leaves| ==> Settled(run.leaves[i].state))
    decreases |steps|
  {
    if steps != [] {
      hide RunStep;
      RunStepSettles(env, steps[0], Spot(Body(pos, index), Some(number)), [], 1, history, w);
      var first := RunStep(env, steps[0], Spot(Body(pos, index), Some(number)), [], 1, history, w);
      RunBodySettles(env, steps[1..], pos, index + 1, number, history + LeafOutcomes(first.leaf), first.world);
    }
  }

  // ---- loop bodies ----

  function OpenLoopNode(loop: LoopDef, its: seq<Iteration>, granted: nat, leaves: seq<Leaf>): Node {
    LoopOf(loop, Running, its + [Iteration(|its| + 1, Running, leaves, None)], granted)
  }

  /** The loop's id finds a loop with as many body steps: what an iteration of the tree can be driven with. */
  predicate FindsLike(defs: seq<Definition>, loop: LoopDef) {
    && Lookup(defs, loop.id).Some? && Lookup(defs, loop.id).value.LoopItem?
    && |Lookup(defs, loop.id).value.loop.body| == |loop.body|
  }

  /** The loop at pos is the one selected, and everything after it is still silent. */
  predicate AtLoop(env: Env, c: Core, pos: nat, loop: LoopDef) {
    && Sound(env, c) && c.control.Ready? && pos < |c.nodes| && SilentAfter(c.nodes, pos)
    && (forall i :: 0 <= i < pos ==> Terminal(NodeStateOf(c.nodes[i])))
    && FindsLike(env.blueprint, loop)
  }

  /** done are finished, the rest of the body is untouched. */
  predicate InBody(env: Env, c: Core, pos: nat, loop: LoopDef, its: seq<Iteration>, granted: nat,
                   done: seq<Leaf>, rest: seq<StepDef>)
  {
    && AtLoop(env, c, pos, loop)
    && |done| <= |loop.body| && rest == loop.body[|done|..]
    && (forall i :: 0 <= i < |done| ==> Terminal(done[i].state))
    && c.nodes[pos] == OpenLoopNode(loop, its, granted, done + PendingLeaves(rest))
  }

  /** The definition found has this step at this place of its body. */
  predicate StepFound(defs: seq<Definition>, loop: LoopDef, index: nat, step: StepDef)
    requires FindsLike(defs, loop) && index < |loop.body|
  {
    Lookup(defs, loop.id).value.loop.body[index] == step
  }

  /** In addition, the step to run next is the one the definition found says. */
  predicate AtBody(env: Env, c: Core, pos: nat, loop: LoopDef, its: seq<Iteration>, granted: nat,
                   done: seq<Leaf>, rest: seq<StepDef>)
  {
    && InBody(env, c, pos, loop, its, granted, done, rest)
    && (rest != [] ==> StepFound(env.blueprint, loop, |done|, rest[0]))
  }

  function HistoryAt(c: Core, pos: nat, its: seq<Iteration>, done: seq<Leaf>): seq<Outcome>
    requires pos <= |c.nodes|
  {
    Outcomes(c.nodes[..pos]) + IterationsOutcomes(its) + LeavesOutcomes(done)
  }

  lemma IterationsOutcomesLast(its: seq<Iteration>, it: Iteration)
    ensures IterationsOutcomes(its + [it]) == IterationsOutcomes(its) + LeavesOutcomes(it.steps)
  {
    assert (its + [it])[..|its + [it]| - 1] == its;
    assert Last(its + [it]) == it;
  }

  lemma LeavesOutcomesLast(leaves: seq<Leaf>, leaf: Leaf)
    ensures LeavesOutcomes(leaves + [leaf]) == LeavesOutcomes(leaves) + LeafOutcomes(leaf)
  {
    assert (leaves + [leaf])[..|leaves + [leaf]| - 1] == leaves;
    assert Last(leaves + [leaf]) == leaf;
  }

  lemma OpenLoopOutcomes(loop: LoopDef, its: seq<Iteration>, granted: nat, done: seq<Leaf>, rest: seq<StepDef>)
    ensures NodeOutcomes(OpenLoopNode(loop, its, granted, done + PendingLeaves(rest)))
         == IterationsOutcomes(its) + LeavesOutcomes(done)
  {
    hide LeavesOutcomes;
    var it := Iteration(|its| + 1, Running, done + PendingLeaves(rest), None);
    IterationsOutcomesLast(its, it);
    hide IterationsOutcomes;
    LeavesOutcomesConcat(done, PendingLeaves(rest));
    PendingSilent(rest);
  }

  lemma BodyHistory(env: Env, c: Core, pos: nat, loop: LoopDef, its: seq<Iteration>, granted: nat,
                    done: seq<Leaf>, rest: seq<StepDef>)
    requires AtBody(env, c, pos, loop, its, granted, done, rest)
    ensures Outcomes(c.nodes) == HistoryAt(c, pos, its, done)
  {
    hide Sound, NodeOutcomes, LeavesOutcomes, IterationsOutcomes, Outcomes;
    OutcomesSplit(c.nodes, pos);
    OpenLoopOutcomes(loop, its, granted, done, rest);
  }

  lemma BodySelects(env: Env, c: Core, pos: nat, loop: LoopDef, its: seq<Iteration>, granted: nat,
                    done: seq<Leaf>, rest: seq<StepDef>)
    requires AtBody(env, c, pos, loop, its, granted, done, rest)
    ensures rest != [] ==> SelectMove(env.blueprint, c.nodes) == RunSlot(Body(pos, |done|), rest[0])
    ensures rest == [] && FindsBody(env.blueprint, loop.id, loop.body) ==>
              SelectMove(env.blueprint, c.nodes) == LoopMove(pos, loop.body, CompleteIteration)
  {
    FirstLiveIs(c.nodes, pos);
    var steps := Last(c.nodes[pos].iterations).steps;
    assert steps == done + PendingLeaves(rest);
    FirstLiveLeafIs(steps, Min(|loop.body|, |steps|), |done|);
  }

  /** The core after the body's current step has begun its first attempt. */
  function Begun(c: Core, pos: nat, loop: LoopDef, its: seq<Iteration>, granted: nat,
                 done: seq<Leaf>, rest: seq<StepDef>): Core
    requires pos < |c.nodes| && rest != []
  {
    var leaf := FirstAttempt(rest[0]);
    c.(nodes := c.nodes[pos := OpenLoopNode(loop, its, granted, done + [leaf] + PendingLeaves(rest[1..]))])
  }

  function FirstAttempt(step: StepDef): Leaf {
    Leaf(step.id, step.name, Running, [Attempt(1, None)])
  }

  /** A selected pending leaf begins its first attempt, wherever it is in the tree. */
  lemma SlotOpens(env: Env, c: Core, at: Target, step: StepDef)
    requires Sound(env, c) && c.control.Ready? && SelectMove(env.blueprint, c.nodes) == RunSlot(at, step)
    requires LeafAt(c.nodes, at) && GetLeaf(c.nodes, at) == PendingLeaf(step)
    ensures var c1 := c.(nodes := SetLeaf(c.nodes, at, FirstAttempt(step)));
            && Next(env, c) == c1 && AtOpenAttempt(env, c1, at, step, [], 1)
            && Outcomes(c1.nodes) == Outcomes(c.nodes) && SpotOf(c1.nodes, at) == SpotOf(c.nodes, at)
  {
    hide Outcomes, IterationOf, SetLeaf, Runnable, SelectMove;
    SlotBegins(env, c, at, step);
    hide Next;
    SelectStable(env.blueprint, c.nodes, at, step, FirstAttempt(step));
    SetLeafOutcomes(c.nodes, at, FirstAttempt(step));
    SetLeafTwice(c.nodes, at, FirstAttempt(step), FirstAttempt(step));
    assert [] + [Attempt(1, None)] == [Attempt(1, None)];
  }

  lemma SlotBegins(env: Env, c: Core, at: Target, step: StepDef)
    requires Sound(env, c) && c.control.Ready? && SelectMove(env.blueprint, c.nodes) == RunSlot(at, step)
    requires LeafAt(c.nodes, at) && GetLeaf(c.nodes, at) == PendingLeaf(step)
    ensures Next(env, c) == c.(nodes := SetLeaf(c.nodes, at, FirstAttempt(step)))
  {
    NextBeginsAttempt(env, c, at, step);
    hide SelectMove, Runnable, SetLeaf, Next;
    assert [] + [Attempt(1, None)] == [Attempt(1, None)];
  }

  /** Where the body's current step is, and what the tree becomes when it begins. */
  lemma BodyStepPlace(env: Env, c: Core, pos: nat, loop: LoopDef, its: seq<Iteration>, granted: nat,
                      done: seq<Leaf>, rest: seq<StepDef>)
    requires AtBody(env, c, pos, loop, its, granted, done, rest) && rest != []
    ensures var at := Body(pos, |done|);
            && LeafAt(c.nodes, at) && GetLeaf(c.nodes, at) == PendingLeaf(rest[0])
            && IterationOf(c.nodes, at) == Some(|its| + 1)
            && Begun(c, pos, loop, its, granted, done, rest) == c.(nodes := SetLeaf(c.nodes, at, FirstAttempt(rest[0])))
  {
    hide Sound, LeafAt, GetLeaf, SetLeaf, IterationOf;
    var leaf := FirstAttempt(rest[0]);
    var steps := done + PendingLeaves(rest);
    assert steps[|done|] == PendingLeaf(rest[0]);
    assert steps[|done| := leaf] == done + [leaf] + PendingLeaves(rest[1..]);
    BodyPlace(c.nodes, pos, loop, its, granted, steps, |done|, leaf);
  }

  lemma BodyBegins(env: Env, c: Core, pos: nat, loop: LoopDef, its: seq<Iteration>, granted: nat,
                   done: seq<Leaf>, rest: seq<StepDef>)
    requires AtBody(env, c, pos, loop, its, granted, done, rest) && rest != []
    ensures var c1 := Begun(c, pos, loop, its, granted, done, rest); var at := Body(pos, |done|);
            && Next(env, c) == c1 && AtOpenAttempt(env, c1, at, rest[0], [], 1)
            && Outcomes(c1.nodes) == HistoryAt(c, pos, its, done)
            && IterationOf(c1.nodes, at) == Some(|its| + 1)
  {
    hide SelectMove, Next, Runnable, HistoryAt, Outcomes, SetLeaf, AtOpenAttempt, LeafAt, GetLeaf, IterationOf, Begun;
    AtLoopSound(env, c, pos, loop);
    BodySelects(env, c, pos, loop, its, granted, done, rest);
    BodyHistory(env, c, pos, loop, its, granted, done, rest);
    BodyStepPlace(env, c, pos, loop, its, granted, done, rest);
    SlotOpens(env, c, Body(pos, |done|), rest[0]);
  }

  lemma AtLoopSound(env: Env, c: Core, pos: nat, loop: LoopDef)
    requires AtLoop(env, c, pos, loop)
    ensures Sound(env, c) && c.control.Ready? && pos < |c.nodes|
  {
  }

  /** Setting a body leaf, spelled out on the loop node. */
  lemma BodyPlace(nodes: seq<Node>, pos: nat, loop: LoopDef, its: seq<Iteration>, granted: nat,
                  steps: seq<Leaf>, index: nat, leaf: Leaf)
    requires pos < |nodes| && nodes[pos] == OpenLoopNode(loop, its, granted, steps) && index < |steps|
    ensures LeafAt(nodes, Body(pos, index)) && GetLeaf(nodes, Body(pos, index)) == steps[index]
    ensures IterationOf(nodes, Body(pos, index)) == Some(|its| + 1)
    ensures SetLeaf(nodes, Body(pos, index), leaf)
         == nodes[pos := OpenLoopNode(loop, its, granted, steps[index := leaf])]
  {
    var it := Iteration(|its| + 1, Running, steps, None);
    var all := its + [it];
    assert Last(all) == it;
    assert WithLast(all, it.(steps := steps[index := leaf])) == its + [it.(steps := steps[index := leaf])];
  }

  function AfterBody(c: Core, pos: nat, loop: LoopDef, its: seq<Iteration>, granted: nat, done: seq<Leaf>,
                     run: BodyRun): Core
    requires pos < |c.nodes|
  {
    Core(c.nodes[pos := OpenLoopNode(loop, its, granted, done + run.leaves)], ControlAfter(Body(pos, 0), run.end),
         run.world.replies, run.world.executed, c.hasError || Errs(run.end))
  }

  lemma {:induction false} BodyRefines(env: Env, c: Core, pos: nat, loop: LoopDef, its: seq<Iteration>, granted: nat,
                                       done: seq<Leaf>, rest: seq<StepDef>)
    requires AtBody(env, c, pos, loop, its, granted, done, rest) && FindsBody(env.blueprint, loop.id, loop.body)
    ensures Leads(env, c, AfterBody(c, pos, loop, its, granted, done,
                                    RunBody(env, rest, pos, |done|, |its| + 1, HistoryAt(c, pos, its, done),
                                            World(c.replies, c.executed))))
    decreases |rest|
  {
    hide Next, RunStep, RunBody, AfterBody, SelectMove, Runnable, Outcomes, Leads, HistoryAt, LeafOutcomes, SetLeaf;
    if rest == [] {
      LeadsOne(env, c);
      BodyIsDone(env, c, pos, loop, its, granted, done);
    } else {
      var history := HistoryAt(c, pos, its, done);
      var w := World(c.replies, c.executed);
      var first := RunStep(env, rest[0], Spot(Body(pos, |done|), Some(|its| + 1)), [], 1, history, w);
      var c2 := AfterFirst(c, pos, loop, its, granted, done, rest, first);
      BodyFirst(env, c, pos, loop, its, granted, done, rest);
      BodyAfterFirst(env, c, pos, loop, its, granted, done, rest, history, first);
      if first.end.Onward? {
        RunStepSettles(env, rest[0], Spot(Body(pos, |done|), Some(|its| + 1)), [], 1, history, w);
        BodyContinues(env, c, c2, pos, loop, its, granted, done, rest, first);
        BodyRefines(env, c2, pos, loop, its, granted, done + [first.leaf], rest[1..]);
        var tail := RunBody(env, rest[1..], pos, |done| + 1, |its| + 1, history + LeafOutcomes(first.leaf),
                            first.world);
        LeadsTrans(env, c, c2, AfterBody(c2, pos, loop, its, granted, done + [first.leaf], tail));
      }
    }
  }

  lemma BodyIsDone(env: Env, c: Core, pos: nat, loop: LoopDef, its: seq<Iteration>, granted: nat, done: seq<Leaf>)
    requires AtBody(env, c, pos, loop, its, granted, done, [])
    ensures AfterBody(c, pos, loop, its, granted, done,
                      RunBody(env, [], pos, |done|, |its| + 1, HistoryAt(c, pos, its, done),
                              World(c.replies, c.executed))) == c
  {
    hide Sound, HistoryAt;
    assert PendingLeaves([]) == [];
    assert c.nodes[pos := c.nodes[pos]] == c.nodes;
  }

  /** After the first step the body has stopped, or what is left of it ends where the body does. */
  lemma BodyAfterFirst(env: Env, c: Core, pos: nat, loop: LoopDef, its: seq<Iteration>, granted: nat,
                       done: seq<Leaf>, rest: seq<StepDef>, history: seq<Outcome>, first: StepRun)
    requires pos < |c.nodes| && rest != []
    requires first == RunStep(env, rest[0], Spot(Body(pos, |done|), Some(|its| + 1)), [], 1, history,
                              World(c.replies, c.executed))
    ensures var run := RunBody(env, rest, pos, |done|, |its| + 1, history, World(c.replies, c.executed));
            var c2 := AfterFirst(c, pos, loop, its, granted, done, rest, first);
            var tail := RunBody(env, rest[1..], pos, |done| + 1, |its| + 1, history + LeafOutcomes(first.leaf),
                                first.world);
            AfterBody(c, pos, loop, its, granted, done, run)
            == if first.end.StopWith? then c2 else AfterBody(c2, pos, loop, its, granted, done + [first.leaf], tail)
  {
    hide RunStep, OpenLoopNode, LeafOutcomes;
    var tail := RunBody(env, rest[1..], pos, |done| + 1, |its| + 1, history + LeafOutcomes(first.leaf), first.world);
    assert done + [first.leaf] + tail.leaves == done + ([first.leaf] + tail.leaves);
  }

  /** The coordinator after the first remaining body step has settled or stopped the run. */
  function AfterFirst(c: Core, pos: nat, loop: LoopDef, its: seq<Iteration>, granted: nat, done: seq<Leaf>,
                      rest: seq<StepDef>, first: StepRun): Core
    requires pos < |c.nodes| && rest != []
  {
    Core(c.nodes[pos := OpenLoopNode(loop, its, granted, done + ([first.leaf] + PendingLeaves(rest[1..])))],
         ControlAfter(Body(pos, 0), first.end), first.world.replies, first.world.executed,
         c.hasError || Errs(first.end))
  }

  lemma BodyFirst(env: Env, c: Core, pos: nat, loop: LoopDef, its: seq<Iteration>, granted: nat,
                  done: seq<Leaf>, rest: seq<StepDef>)
    requires AtBody(env, c, pos, loop, its, granted, done, rest) && rest != []
    ensures var first := RunStep(env, rest[0], Spot(Body(pos, |done|), Some(|its| + 1)), [], 1,
                                 HistoryAt(c, pos, its, done),
                                 World(c.replies, c.executed));
            var c2 := AfterFirst(c, pos, loop, its, granted, done, rest, first);
            Leads(env, c, c2) && Sound(env, c2)
  {
    hide Next, RunStep, SelectMove, Runnable, SetLeaf, HistoryAt, Leads;
    var history := HistoryAt(c, pos, its, done);
    var at := Body(pos, |done|);
    var c1 := Begun(c, pos, loop, its, granted, done, rest);
    LeadsOne(env, c);
    BodyBegins(env, c, pos, loop, its, granted, done, rest);
    StepRefines(env, c1, at, rest[0], [], 1, history);
    var first := RunStep(env, rest[0], Spot(Body(pos, |done|), Some(|its| + 1)), [], 1, history,
                         World(c.replies, c.executed));
    BodyStepDone(env, c, pos, loop, its, granted, done, rest, first);
    LeadsTrans(env, c, c1, AfterStep(c1, at, first));
    LeadsFinal(env, c, AfterStep(c1, at, first));
  }

  lemma BodyStepDone(env: Env, c: Core, pos: nat, loop: LoopDef, its: seq<Iteration>, granted: nat,
                     done: seq<Leaf>, rest: seq<StepDef>, first: StepRun)
    requires AtBody(env, c, pos, loop, its, granted, done, rest) && rest != []
    ensures var c1 := Begun(c, pos, loop, its, granted, done, rest); var at := Body(pos, |done|);
            && LeafAt(c1.nodes, at)
            && SetLeaf(c1.nodes, at, first.leaf)
               == c.nodes[pos := OpenLoopNode(loop, its, granted, done + ([first.leaf] + PendingLeaves(rest[1..])))]
  {
    hide Sound, LeafAt, SetLeaf;
    var leaf := FirstAttempt(rest[0]);
    var steps := done + [leaf] + PendingLeaves(rest[1..]);
    var c1 := Begun(c, pos, loop, its, granted, done, rest);
    BodyPlace(c1.nodes, pos, loop, its, granted, steps, |done|, first.leaf);
    assert steps[|done| := first.leaf] == done + ([first.leaf] + PendingLeaves(rest[1..]));
  }

  lemma BodyContinues(env: Env, c: Core, c2: Core, pos: nat, loop: LoopDef, its: seq<Iteration>, granted: nat,
                      done: seq<Leaf>, rest: seq<StepDef>, first: StepRun)
    requires AtBody(env, c, pos, loop, its, granted, done, rest) && rest != [] && Settled(first.leaf.state)
    requires Sound(env, c2) && c2.control.Ready?
    requires c2.nodes
          == c.nodes[pos := OpenLoopNode(loop, its, granted, done + ([first.leaf] + PendingLeaves(rest[1..])))]
    ensures InBody(env, c2, pos, loop, its, granted, done + [first.leaf], rest[1..])
    ensures FindsBody(env.blueprint, loop.id, loop.body) ==>
              AtBody(env, c2, pos, loop, its, granted, done + [first.leaf], rest[1..])
    ensures HistoryAt(c2, pos, its, done + [first.leaf]) == HistoryAt(c, pos, its, done) + LeafOutcomes(first.leaf)
  {
    hide Sound, LeafOutcomes, NodeOutcomes;
    assert done + ([first.leaf] + PendingLeaves(rest[1..])) == done + [first.leaf] + PendingLeaves(rest[1..]);
    assert c2.nodes[..pos] == c.nodes[..pos];
    LeavesOutcomesLast(done, first.leaf);
  }

  // ---- loops ----

  function ControlAfterLoop(end: End): Control {
    match end
    case Onward => Ready
    case StopWith(ending) => Halted(ending)
  }

  function AfterLoop(c: Core, pos: nat, run: LoopRun): Core
    requires pos < |c.nodes|
  {
    Core(c.nodes[pos := run.node], ControlAfterLoop(run.end), run.world.replies, run.world.executed,
         c.hasError || Errs(run.end))
  }

  /** The loop's last iteration is closed without meeting its conditions. */
  predicate AtClosed(env: Env, c: Core, pos: nat, loop: LoopDef, its: seq<Iteration>, granted: nat) {
    && AtLoop(env, c, pos, loop) && FindsBody(env.blueprint, loop.id, loop.body) && its != []
    && c.nodes[pos] == LoopOf(loop, Running, its, granted)
    && Last(its).number == |its| && Last(its).state.Completed? && Last(its).untilPassed == Some(false)
    && |Last(its).steps| == |loop.body|
    && (forall i :: 0 <= i < |Last(its).steps| ==> Terminal(Last(its).steps[i].state))
  }

  function LoopHistory(c: Core, pos: nat, its: seq<Iteration>): seq<Outcome>
    requires pos <= |c.nodes|
  {
    Outcomes(c.nodes[..pos]) + IterationsOutcomes(its)
  }

  lemma ClosedSelects(env: Env, c: Core, pos: nat, loop: LoopDef, its: seq<Iteration>, granted: nat)
    requires AtClosed(env, c, pos, loop, its, granted)
    ensures SelectMove(env.blueprint, c.nodes)
         == LoopMove(pos, loop.body, if |its| < loop.maxIterations + granted then RepeatNextIteration(|its| + 1)
                                else HandleCeiling(loop.onMaxIterations))
  {
    FirstLiveIs(c.nodes, pos);
    FirstLiveLeafIs(Last(its).steps, |loop.body|, |loop.body|);
  }

  lemma NextLoopMove(env: Env, c: Core, pos: nat, loop: LoopDef, decision: LoopDecision)
    requires Sound(env, c) && c.control.Ready? && LoopAt(c.nodes, pos) && !decision.AdvanceBodyStep?
    requires SelectMove(env.blueprint, c.nodes) == LoopMove(pos, loop.body, decision)
    ensures Next(env, c) == ApplyLoopDecision(env, c, pos, loop.body, decision).core
  {
    hide ApplyLoopDecision, SelectMove, Runnable;
  }

  /** One more iteration is begun. */
  lemma LoopRepeats(env: Env, c: Core, pos: nat, loop: LoopDef, its: seq<Iteration>, granted: nat)
    requires AtClosed(env, c, pos, loop, its, granted) && |its| < loop.maxIterations + granted
    ensures var c1 := c.(nodes := c.nodes[pos := OpenLoopNode(loop, its, granted, [] + PendingLeaves(loop.body))]);
            && Next(env, c) == c1 && AtBody(env, c1, pos, loop, its, granted, [], loop.body)
            && HistoryAt(c1, pos, its, []) == LoopHistory(c, pos, its)
  {
    hide Runnable, SelectMove, Lookup, NodeOutcomes;
    NextRepeats(env, c, pos, loop, its, granted);
    hide Next;
    var c1 := c.(nodes := c.nodes[pos := OpenLoopNode(loop, its, granted, [] + PendingLeaves(loop.body))]);
    assert c1.nodes[..pos] == c.nodes[..pos];
    assert loop.body[0..] == loop.body;
  }

  lemma NextRepeats(env: Env, c: Core, pos: nat, loop: LoopDef, its: seq<Iteration>, granted: nat)
    requires AtClosed(env, c, pos, loop, its, granted) && |its| < loop.maxIterations + granted
    ensures Next(env, c) == c.(nodes := c.nodes[pos := OpenLoopNode(loop, its, granted, [] + PendingLeaves(loop.body))])
  {
    ClosedSelects(env, c, pos, loop, its, granted);
    hide SelectMove, Runnable;
    NextLoopMove(env, c, pos, loop, RepeatNextIteration(|its| + 1));
    assert [] + PendingLeaves(loop.body) == PendingLeaves(loop.body);
  }

  predicate Passed(env: Env, loop: LoopDef, number: nat, leaves: seq<Leaf>) {
    forall i :: 0 <= i < |loop.until| ==> env.holds(loop.until[i], number, IterationResults(leaves))
  }

  /** The iteration whose body steps are settled, once its conditions are evaluated. */
  function Closed(env: Env, loop: LoopDef, number: nat, leaves: seq<Leaf>): Iteration {
    Iteration(number, Completed, leaves, Some(Passed(env, loop, number, leaves)))
  }

  lemma NextCloses(env: Env, c: Core, pos: nat, loop: LoopDef, its: seq<Iteration>, granted: nat, leaves: seq<Leaf>)
    requires AtBody(env, c, pos, loop, its, granted, leaves, []) && FindsBody(env.blueprint, loop.id, loop.body)
    ensures Next(env, c)
          == c.(nodes := c.nodes[pos := LoopOf(loop, Running, its + [Closed(env, loop, |its| + 1, leaves)], granted)])
  {
    BodySelects(env, c, pos, loop, its, granted, leaves, []);
    hide SelectMove, Runnable;
    NextLoopMove(env, c, pos, loop, CompleteIteration);
    hide Next, IterationResults;
    assert leaves + PendingLeaves([]) == leaves;
    var it := Iteration(|its| + 1, Running, leaves, None);
    var it1 := Closed(env, loop, |its| + 1, leaves);
    assert it1.untilPassed == Some(UntilHolds(env.holds, loop.until, |its| + 1, IterationResults(leaves)));
    assert Last(its + [it]) == it;
    assert WithLast(its + [it], it1) == its + [it1];
  }

  /** The conditions are evaluated once every body step is settled. */
  lemma LoopCloses(env: Env, c: Core, pos: nat, loop: LoopDef, its: seq<Iteration>, granted: nat, leaves: seq<Leaf>)
    requires AtBody(env, c, pos, loop, its, granted, leaves, []) && |leaves| == |loop.body|
    requires FindsBody(env.blueprint, loop.id, loop.body)
    ensures var its1 := its + [Closed(env, loop, |its| + 1, leaves)];
            var c1 := c.(nodes := c.nodes[pos := LoopOf(loop, Running, its1, granted)]);
            var passed := Passed(env, loop, |its| + 1, leaves);
            && Next(env, c) == c1
            && (passed ==> Next(env, c1) == c.(nodes := c.nodes[pos := LoopOf(loop, Completed, its1, granted)]))
            && (!passed ==> AtClosed(env, c1, pos, loop, its1, granted))
            && LoopHistory(c1, pos, its1) == LoopHistory(c, pos, its) + LeavesOutcomes(leaves)
  {
    hide Next, Sound, Passed, LeavesOutcomes, LoopHistory;
    NextCloses(env, c, pos, loop, its, granted, leaves);
    var c1 := Next(env, c);
    assert Sound(env, c1);
    var it1 := Closed(env, loop, |its| + 1, leaves);
    var its1 := its + [it1];
    assert Last(its1) == it1;
    ClosesIteration(env, c, c1, pos, loop, its, granted, it1);
    if Passed(env, loop, |its| + 1, leaves) {
      LoopPasses(env, c1, pos, loop, its1, granted);
      assert c1.nodes[pos := LoopOf(loop, Completed, its1, granted)]
            == c.nodes[pos := LoopOf(loop, Completed, its1, granted)];
    }
  }

  lemma ClosesIteration(env: Env, c: Core, c1: Core, pos: nat, loop: LoopDef, its: seq<Iteration>, granted: nat,
                        it: Iteration)
    requires AtLoop(env, c, pos, loop) && Sound(env, c1)
    requires c1 == c.(nodes := c.nodes[pos := LoopOf(loop, Running, its + [it], granted)])
    ensures AtLoop(env, c1, pos, loop) && c1.nodes[..pos] == c.nodes[..pos]
    ensures LoopHistory(c1, pos, its + [it]) == LoopHistory(c, pos, its) + LeavesOutcomes(it.steps)
  {
    hide Sound, LeavesOutcomes;
    IterationsOutcomesLast(its, it);
  }

  lemma LoopPasses(env: Env, c: Core, pos: nat, loop: LoopDef, its: seq<Iteration>, granted: nat)
    requires AtLoop(env, c, pos, loop) && its != [] && c.nodes[pos] == LoopOf(loop, Running, its, granted)
    requires Last(its).untilPassed == Some(true) && |Last(its).steps| == |loop.body|
    requires FindsBody(env.blueprint, loop.id, loop.body)
    requires forall i :: 0 <= i < |Last(its).steps| ==> Terminal(Last(its).steps[i].state)
    ensures Next(env, c) == c.(nodes := c.nodes[pos := LoopOf(loop, Completed, its, granted)])
  {
    FirstLiveIs(c.nodes, pos);
    FirstLiveLeafIs(Last(its).steps, |loop.body|, |loop.body|);
    NextLoopMove(env, c, pos, loop, TerminateLoopPassed);
    assert WithLast(its, Last(its)) == its;
  }

  lemma {:induction false} LoopRefines(env: Env, c: Core, pos: nat, loop: LoopDef, its: seq<Iteration>, granted: nat)
    requires AtBody(env, c, pos, loop, its, granted, [], loop.body) && FindsBody(env.blueprint, loop.id, loop.body)
    ensures Leads(env, c, AfterLoop(c, pos, RunLoop(env, loop, pos, its, granted, LoopHistory(c, pos, its),
                                                    World(c.replies, c.executed))))
    decreases |c.replies|, Left(loop, granted, |its|), 1
  {
    hide Next, RunBody, Sound, AtBody, AtClosed, LoopHistory, HistoryAt, LeavesOutcomes, AtCeiling, Leads, FindsBody;
    hide IterationResults;
    AtBodyBasics(env, c, pos, loop, its, granted, [], loop.body);
    var history := LoopHistory(c, pos, its);
    var w := World(c.replies, c.executed);
    var number := |its| + 1;
    var body := RunBody(env, loop.body, pos, 0, number, history, w);
    HistoryEmpty(c, pos, its);
    BodyRefines(env, c, pos, loop, its, granted, [], loop.body);
    RunBodyShrinks(env, loop.body, pos, 0, number, history, w);
    RunBodySettles(env, loop.body, pos, 0, number, history, w);
    var c1 := AfterBody(c, pos, loop, its, granted, [], body);
    assert [] + body.leaves == body.leaves;
    LeadsFinal(env, c, c1);
    LeadsOne(env, c1);
    if body.end == StopWith(Returned(RunFailed)) {
      LoopFails(env, c, c1, pos, loop, its, granted, body);
      LeadsTrans(env, c, c1, Next(env, c1));
    } else if body.end.Onward? {
      BodyEnds(env, c, c1, pos, loop, its, granted, body);
      LoopCloses(env, c1, pos, loop, its, granted, body.leaves);
      var c2 := Next(env, c1);
      LeadsTrans(env, c, c1, c2);
      LeadsFinal(env, c, c2);
      LeadsOne(env, c2);
      var its1 := its + [Closed(env, loop, number, body.leaves)];
      if Passed(env, loop, number, body.leaves) {
        var n := LoopOf(loop, Completed, its1, granted);
        assert c1.nodes[pos := n] == c.nodes[pos := n];
        assert RunLoop(env, loop, pos, its, granted, history, w) == LoopRun(n, Onward, body.world);
        LeadsTrans(env, c, c2, Next(env, c2));
      } else {
        if number < loop.maxIterations + granted {
          LoopGoesOn(env, c2, pos, loop, its1, granted);
        } else {
          CeilingRefines(env, c2, pos, loop, its1, granted);
        }
        var r := ContinueLoop(env, loop, pos, its1, granted, LoopHistory(c2, pos, its1),
                              World(c2.replies, c2.executed));
        assert World(c2.replies, c2.executed) == body.world;
        assert RunLoop(env, loop, pos, its, granted, history, w) == r;
        assert c2.nodes[pos := r.node] == c.nodes[pos := r.node];
        LeadsTrans(env, c, c2, AfterLoop(c2, pos, r));
      }
    }
  }

  lemma AtBodyBasics(env: Env, c: Core, pos: nat, loop: LoopDef, its: seq<Iteration>, granted: nat,
                     done: seq<Leaf>, rest: seq<StepDef>)
    requires AtBody(env, c, pos, loop, its, granted, done, rest)
    ensures Sound(env, c) && pos < |c.nodes|
  {
  }

  lemma HistoryEmpty(c: Core, pos: nat, its: seq<Iteration>)
    requires pos <= |c.nodes|
    ensures HistoryAt(c, pos, its, []) == LoopHistory(c, pos, its)
  {
    EmptyOutcomes();
  }

  /** The body has run to its end: its conditions are evaluated next. */
  lemma BodyEnds(env: Env, c: Core, c1: Core, pos: nat, loop: LoopDef, its: seq<Iteration>, granted: nat, body: BodyRun)
    requires AtBody(env, c, pos, loop, its, granted, [], loop.body) && Sound(env, c1) && body.end.Onward?
    requires c1 == AfterBody(c, pos, loop, its, granted, [], body) && |body.leaves| == |loop.body|
    requires forall i :: 0 <= i < |body.leaves| ==> Settled(body.leaves[i].state)
    ensures AtBody(env, c1, pos, loop, its, granted, body.leaves, [])
    ensures LoopHistory(c1, pos, its) == LoopHistory(c, pos, its)
  {
    hide Sound, Lookup, Outcomes, IterationsOutcomes;
    assert PendingLeaves([]) == [] && body.leaves + [] == body.leaves == [] + body.leaves;
    assert loop.body[|loop.body|..] == [];
    assert c1.nodes[..pos] == c.nodes[..pos];
  }

  lemma EmptyOutcomes()
    ensures LeavesOutcomes([]) == [] && IterationsOutcomes([]) == [] && Outcomes([]) == []
  {
  }

  lemma LoopFails(env: Env, c: Core, c1: Core, pos: nat, loop: LoopDef, its: seq<Iteration>, granted: nat,
                  body: BodyRun)
    requires pos < |c.nodes| && Sound(env, c1) && body.end == StopWith(Returned(RunFailed))
    requires c1 == AfterBody(c, pos, loop, its, granted, [], body)
    ensures Next(env, c1)
         == c1.(nodes := c.nodes[pos := LoopOf(loop, Failed,
                                               its + [Iteration(|its| + 1, Failed, body.leaves, None)], granted)],
                control := Halted(Returned(RunFailed)))
  {
    hide Runnable;
    var it := Iteration(|its| + 1, Running, body.leaves, None);
    assert [] + body.leaves == body.leaves;
    assert Last(its + [it]) == it;
    assert WithLast(its + [it], it.(state := Failed)) == its + [it.(state := Failed)];
  }

  /** From a closed iteration that did not pass: another iteration, or the ceiling. */
  lemma {:induction false} LoopGoesOn(env: Env, c: Core, pos: nat, loop: LoopDef, its: seq<Iteration>, granted: nat)
    requires AtClosed(env, c, pos, loop, its, granted)
    ensures Leads(env, c, AfterLoop(c, pos, ContinueLoop(env, loop, pos, its, granted, LoopHistory(c, pos, its),
                                                         World(c.replies, c.executed))))
    decreases |c.replies|, Left(loop, granted, |its|), 2
  {
    hide Next, SelectMove, Runnable, RunLoop, AtCeiling;
    if |its| < loop.maxIterations + granted {
      LoopRepeats(env, c, pos, loop, its, granted);
      var c1 := Next(env, c);
      LeadsOne(env, c);
      LoopRefines(env, c1, pos, loop, its, granted);
      assert c1.nodes[..pos] == c.nodes[..pos];
      LeadsTrans(env, c, c1, AfterLoop(c1, pos, RunLoop(env, loop, pos, its, granted, LoopHistory(c, pos, its),
                                                        World(c.replies, c.executed))));
    } else {
      CeilingRefines(env, c, pos, loop, its, granted);
    }
  }

  lemma {:induction false} CeilingRefines(env: Env, c: Core, pos: nat, loop: LoopDef, its: seq<Iteration>, granted: nat)
    requires AtClosed(env, c, pos, loop, its, granted) && |its| >= loop.maxIterations + granted
    ensures Leads(env, c, AfterLoop(c, pos, AtCeiling(env, loop, pos, its, granted, LoopHistory(c, pos, its),
                                                      World(c.replies, c.executed))))
    decreases |c.replies|, 0, 0
  {
    hide Next, SelectMove, Runnable, ContinueLoop;
    LeadsOne(env, c);
    if !HandleCeiling(loop.onMaxIterations).PromptCeiling? || !env.Interactive() || c.replies == []
      || c.replies[0].Interrupt? || !c.replies[0].loop.AnswerGrant? {
      CeilingSettles(env, c, pos, loop, its, granted);
    } else {
      CeilingGrants(env, c, pos, loop, its, granted);
      var c1 := Next(env, c);
      LoopGoesOn(env, c1, pos, loop, its, granted + CEILING_GRANT_COUNT);
      LeadsTrans(env, c, c1, AfterLoop(c1, pos, ContinueLoop(env, loop, pos, its, granted + CEILING_GRANT_COUNT,
                                                             LoopHistory(c1, pos, its),
                                                             World(c1.replies, c1.executed))));
    }
  }

  lemma CeilingSettles(env: Env, c: Core, pos: nat, loop: LoopDef, its: seq<Iteration>, granted: nat)
    requires AtClosed(env, c, pos, loop, its, granted) && |its| >= loop.maxIterations + granted
    requires !HandleCeiling(loop.onMaxIterations).PromptCeiling? || !env.Interactive() || c.replies == []
             || c.replies[0].Interrupt? || !c.replies[0].loop.AnswerGrant?
    ensures Next(env, c) == AfterLoop(c, pos, AtCeiling(env, loop, pos, its, granted, LoopHistory(c, pos, its),
                                                        World(c.replies, c.executed)))
  {
    hide SelectMove, Runnable, ContinueLoop, LoopHistory;
    ClosedSelects(env, c, pos, loop, its, granted);
    NextLoopMove(env, c, pos, loop, HandleCeiling(loop.onMaxIterations));
    assert WithLast(its, Last(its)) == its;
    assert c.nodes[pos := c.nodes[pos]] == c.nodes;
  }

  lemma CeilingGrants(env: Env, c: Core, pos: nat, loop: LoopDef, its: seq<Iteration>, granted: nat)
    requires AtClosed(env, c, pos, loop, its, granted) && |its| >= loop.maxIterations + granted
    requires HandleCeiling(loop.onMaxIterations).PromptCeiling? && env.Interactive() && c.replies != []
    requires c.replies[0].Reply? && c.replies[0].loop.AnswerGrant?
    ensures var c1 := Next(env, c);
            && AtClosed(env, c1, pos, loop, its, granted + CEILING_GRANT_COUNT)
            && c1.replies == c.replies[1..] && c1.executed == c.executed && c1.hasError == c.hasError
            && c1.nodes == c.nodes[pos := LoopOf(loop, Running, its, granted + CEILING_GRANT_COUNT)]
            && LoopHistory(c1, pos, its) == LoopHistory(c, pos, its)
            && AtCeiling(env, loop, pos, its, granted, LoopHistory(c, pos, its), World(c.replies, c.executed))
               == ContinueLoop(env, loop, pos, its, granted + CEILING_GRANT_COUNT, LoopHistory(c1, pos, its),
                               World(c1.replies, c1.executed))
  {
    hide SelectMove, Runnable, ContinueLoop;
    ClosedSelects(env, c, pos, loop, its, granted);
    NextLoopMove(env, c, pos, loop, PromptCeiling);
    var c1 := Next(env, c);
    assert c1.nodes[..pos] == c.nodes[..pos];
  }

  // ---- plans ----

  /** done is finished, the rest of the blueprint is untouched. */
  predicate AtPlan(env: Env, c: Core, done: seq<Node>, rest: seq<Definition>) {
    && Sound(env, c) && c.control.Ready?
    && |done| <= |env.blueprint| && rest == env.blueprint[|done|..]
    && (forall i :: 0 <= i < |done| ==> Terminal(NodeStateOf(done[i])))
    && c.nodes == done + PlanNodes(rest)
  }

  function AfterPlan(c: Core, done: seq<Node>, run: PlanRun): Core {
    Core(done + run.nodes, Halted(run.ending), run.world.replies, run.world.executed,
         c.hasError || (run.ending.Returned? && run.ending != Returned(RunCompleted)))
  }

  lemma PlanSilent(env: Env, c: Core, done: seq<Node>, rest: seq<Definition>)
    requires AtPlan(env, c, done, rest)
    ensures SilentAfter(c.nodes, |done|)
    ensures rest != [] ==> Outcomes(c.nodes) == Outcomes(done) && NodeOutcomes(PlanNode(rest[0])) == []
  {
    hide Sound, NodeOutcomes;
    forall i | |done| <= i < |c.nodes|
      ensures NodeOutcomes(c.nodes[i]) == []
    {
      PlanNodeSilent(rest[i - |done|]);
      assert c.nodes[i] == PlanNode(rest[i - |done|]);
    }
    if rest != [] {
      OutcomesSplit(c.nodes, |done|);
      assert c.nodes[..|done|] == done;
      PlanNodeSilent(rest[0]);
      assert c.nodes[|done|] == PlanNode(rest[0]);
    }
  }

  /** Replacing the first planned node, spelled out. */
  lemma PlanUpdate(done: seq<Node>, rest: seq<Definition>, n: Node)
    requires rest != []
    ensures (done + PlanNodes(rest))[|done| := n] == done + ([n] + PlanNodes(rest[1..]))
    ensures (done + PlanNodes(rest))[|done| := n] == done + [n] + PlanNodes(rest[1..])
    ensures (done + PlanNodes(rest))[..|done|] == done
  {
  }

  lemma PlanStepBegins(env: Env, c: Core, done: seq<Node>, rest: seq<Definition>)
    requires AtPlan(env, c, done, rest) && rest != [] && rest[0].StepItem? && FindsOwn(env.blueprint, rest[0])
    ensures var at := Top(|done|); var step := rest[0].step;
            var c1 := c.(nodes := c.nodes[|done| := StepNode(Leaf(step.id, step.name, Running, [Attempt(1, None)]))]);
            && Next(env, c) == c1 && AtOpenAttempt(env, c1, at, step, [], 1)
            && Outcomes(c1.nodes) == Outcomes(done) && IterationOf(c1.nodes, at) == None
  {
    var at := Top(|done|);
    var step := rest[0].step;
    var leaf := Leaf(step.id, step.name, Running, [Attempt(1, None)]);
    assert rest[0] == env.blueprint[|done|];
    assert c.nodes[|done|] == PlanNode(rest[0]);
    FirstLiveIs(c.nodes, |done|);
    assert SelectMove(env.blueprint, c.nodes) == RunSlot(at, step);
    PlanSilent(env, c, done, rest);
    hide SelectMove, NodeOutcomes;
    SelectStable(env.blueprint, c.nodes, at, step, leaf);
    SetLeafOutcomes(c.nodes, at, leaf);
    SlotOpens(env, c, at, step);
    assert [] + [Attempt(1, None)] == [Attempt(1, None)];
  }

  lemma PlanLoopSelects(env: Env, c: Core, done: seq<Node>, rest: seq<Definition>)
    requires AtPlan(env, c, done, rest) && rest != [] && rest[0].LoopItem? && FindsLike(env.blueprint, rest[0].loop)
    ensures c.nodes[|done|] == PlanNode(rest[0]) && SelectMove(env.blueprint, c.nodes) == OpenLoop(|done|)
  {
    assert rest[0] == env.blueprint[|done|];
    assert c.nodes[|done|] == PlanNode(rest[0]);
    FirstLiveIs(c.nodes, |done|);
  }

  lemma PlanLoopOpens(env: Env, c: Core, done: seq<Node>, rest: seq<Definition>)
    requires AtPlan(env, c, done, rest) && rest != [] && rest[0].LoopItem? && FindsLike(env.blueprint, rest[0].loop)
    ensures var loop := rest[0].loop;
            Next(env, c) == c.(nodes := c.nodes[|done| := OpenLoopNode(loop, [], 0, [] + PendingLeaves(loop.body))])
  {
    PlanLoopSelects(env, c, done, rest);
    hide SelectMove, Runnable;
    var loop := rest[0].loop;
    NextOpens(env, c, |done|);
    hide Next;
    assert [] + PendingLeaves(loop.body) == PendingLeaves(loop.body);
    var its := [NewIteration(loop.body, 1)];
    assert Last(its) == its[0];
    assert WithLast(its, its[0].(state := Running)) == [] + [its[0].(state := Running)];
  }

  lemma PlanLoopAtBody(env: Env, c: Core, c1: Core, done: seq<Node>, loop: LoopDef)
    requires Sound(env, c1) && c1.control.Ready? && |done| < |c.nodes| && c.nodes[..|done|] == done
    requires SilentAfter(c.nodes, |done|) && forall i :: 0 <= i < |done| ==> Terminal(NodeStateOf(done[i]))
    requires FindsLike(env.blueprint, loop)
    requires c1.nodes == c.nodes[|done| := OpenLoopNode(loop, [], 0, [] + PendingLeaves(loop.body))]
    ensures InBody(env, c1, |done|, loop, [], 0, [], loop.body) && LoopHistory(c1, |done|, []) == Outcomes(done)
    ensures FindsBody(env.blueprint, loop.id, loop.body) ==> AtBody(env, c1, |done|, loop, [], 0, [], loop.body)
  {
    hide Sound, Lookup, NodeOutcomes, Outcomes;
    assert c1.nodes[..|done|] == done;
    assert loop.body[0..] == loop.body;
    forall i | 0 <= i < |done|
      ensures Terminal(NodeStateOf(c1.nodes[i]))
    {
      assert c1.nodes[..|done|][i] == done[i];
    }
  }

  lemma PlanLoopBegins(env: Env, c: Core, done: seq<Node>, rest: seq<Definition>)
    requires AtPlan(env, c, done, rest) && rest != [] && rest[0].LoopItem? && FindsLike(env.blueprint, rest[0].loop)
    ensures var loop := rest[0].loop; var pos := |done|;
            var c1 := c.(nodes := c.nodes[pos := OpenLoopNode(loop, [], 0, [] + PendingLeaves(loop.body))]);
            && Next(env, c) == c1 && InBody(env, c1, pos, loop, [], 0, [], loop.body)
            && LoopHistory(c1, pos, []) == Outcomes(done)
            && (FindsOwn(env.blueprint, rest[0]) ==> AtBody(env, c1, pos, loop, [], 0, [], loop.body))
  {
    PlanLoopOpens(env, c, done, rest);
    PlanLoopSelects(env, c, done, rest);
    PlanSilent(env, c, done, rest);
    hide Next, Runnable, SelectMove, Lookup, SilentAfter, NodeOutcomes, Outcomes, AtBody, InBody, LoopHistory;
    PlanLoopAtBody(env, c, Next(env, c), done, rest[0].loop);
  }

  lemma NextOpens(env: Env, c: Core, pos: nat)
    requires Sound(env, c) && c.control.Ready? && LoopAt(c.nodes, pos)
    requires SelectMove(env.blueprint, c.nodes) == OpenLoop(pos)
    ensures Next(env, c) == OpenIteration(c, pos).core
  {
    hide SelectMove, Runnable, OpenIteration;
  }

  function AfterDefinition(c: Core, pos: nat, run: (Node, End, World)): Core
    requires pos < |c.nodes|
  {
    Core(c.nodes[pos := run.0], ControlAfterLoop(run.1), run.2.replies, run.2.executed, c.hasError || Errs(run.1))
  }

  /** One definition: the coordinator gets from its pending node to the interpreter's. */
  lemma DefinitionRefines(env: Env, c: Core, done: seq<Node>, rest: seq<Definition>)
    requires AtPlan(env, c, done, rest) && rest != [] && FindsOwn(env.blueprint, rest[0])
    ensures Leads(env, c, AfterDefinition(c, |done|, RunDefinition(env, rest[0], |done|, Outcomes(done),
                                                                   World(c.replies, c.executed))))
  {
    hide RunDefinition, Outcomes, Leads, AfterDefinition;
    if rest[0].StepItem? {
      PlanStepRefines(env, c, done, rest);
    } else {
      PlanLoopRefines(env, c, done, rest);
    }
  }

  lemma PlanStepRefines(env: Env, c: Core, done: seq<Node>, rest: seq<Definition>)
    requires AtPlan(env, c, done, rest) && rest != [] && FindsOwn(env.blueprint, rest[0]) && rest[0].StepItem?
    ensures Leads(env, c, AfterDefinition(c, |done|, RunDefinition(env, rest[0], |done|, Outcomes(done),
                                                                   World(c.replies, c.executed))))
  {
    hide Next, RunStep, SelectMove, Runnable, Outcomes, IterationsOutcomes, Sound, Lookup;
    var step := rest[0].step;
    LeadsOne(env, c);
    var c1 := Next(env, c);
    PlanStepBegins(env, c, done, rest);
    StepRefines(env, c1, Top(|done|), step, [], 1, Outcomes(done));
    var run := RunStep(env, step, Spot(Top(|done|), None), [], 1, Outcomes(done), World(c.replies, c.executed));
    LeadsTrans(env, c, c1, AfterStep(c1, Top(|done|), run));
  }

  lemma PlanLoopRefines(env: Env, c: Core, done: seq<Node>, rest: seq<Definition>)
    requires AtPlan(env, c, done, rest) && rest != [] && FindsOwn(env.blueprint, rest[0]) && rest[0].LoopItem?
    ensures Leads(env, c, AfterDefinition(c, |done|, RunDefinition(env, rest[0], |done|, Outcomes(done),
                                                                   World(c.replies, c.executed))))
  {
    hide Next, RunLoop, SelectMove, Runnable, Outcomes, IterationsOutcomes, Sound;
    var loop := rest[0].loop;
    LeadsOne(env, c);
    var c1 := Next(env, c);
    PlanLoopBegins(env, c, done, rest);
    LoopRefines(env, c1, |done|, loop, [], 0);
    var run := RunLoop(env, loop, |done|, [], 0, Outcomes(done), World(c.replies, c.executed));
    LeadsTrans(env, c, c1, AfterLoop(c1, |done|, run));
  }

  lemma {:induction false} RunLoopSettles(env: Env, loop: LoopDef, pos: nat, its: seq<Iteration>, granted: nat,
                                          history: seq<Outcome>, w: World)
    ensures var run := RunLoop(env, loop, pos, its, granted, history, w);
            && (run.end.Onward? ==> run.node.LoopNode? && run.node.state.Completed?)
            && run.end != StopWith(Returned(RunCompleted))
    decreases |w.replies|, Left(loop, granted, |its|), 1
  {
    hide RunBody;
    var number := |its| + 1;
    var body := RunBody(env, loop.body, pos, 0, number, history, w);
    RunBodySettles(env, loop.body, pos, 0, number, history, w);
    RunBodyShrinks(env, loop.body, pos, 0, number, history, w);
    var passed := forall i :: 0 <= i < |loop.until| ==> env.holds(loop.until[i], number, IterationResults(body.leaves));
    var its1 := its + [Iteration(number, Completed, body.leaves, Some(passed))];
    var after := history + LeavesOutcomes(body.leaves);
    if body.end.Onward? && !passed {
      if number < loop.maxIterations + granted {
        RunLoopSettles(env, loop, pos, its1, granted, after, body.world);
      } else {
        CeilingSettled(env, loop, pos, its1, granted, after, body.world);
      }
    }
  }

  lemma {:induction false} CeilingSettled(env: Env, loop: LoopDef, pos: nat, its: seq<Iteration>, granted: nat,
                                          history: seq<Outcome>, w: World)
    requires |its| >= loop.maxIterations + granted
    ensures var run := AtCeiling(env, loop, pos, its, granted, history, w);
            && (run.end.Onward? ==> run.node.LoopNode? && run.node.state.Completed?)
            && run.end != StopWith(Returned(RunCompleted))
    decreases |w.replies|, 0, 0
  {
    if w.replies != [] && w.replies[0].Reply? && w.replies[0].loop.AnswerGrant? {
      var granted1 := granted + CEILING_GRANT_COUNT;
      var w1 := w.(replies := w.replies[1..]);
      if |its| < loop.maxIterations + granted1 {
        RunLoopSettles(env, loop, pos, its, granted1, history, w1);
      } else {
        CeilingSettled(env, loop, pos, its, granted1, history, w1);
      }
    }
  }

  lemma DefinitionSettles(env: Env, d: Definition, pos: nat, history: seq<Outcome>, w: World)
    ensures var (node, end, _) := RunDefinition(env, d, pos, history, w);
            && (end.Onward? ==> Settled(NodeStateOf(node)))
            && end != StopWith(Returned(RunCompleted))
  {
    match d
    case StepItem(step) => RunStepSettles(env, step, Spot(Top(pos), None), [], 1, history, w);
    case LoopItem(loop) => RunLoopSettles(env, loop, pos, [], 0, history, w);
  }

  lemma FirstFindsOwn(env: Env, c: Core, done: seq<Node>, rest: seq<Definition>)
    requires AtPlan(env, c, done, rest) && Resolvable(env.blueprint) && rest != []
    ensures FindsOwn(env.blueprint, rest[0])
  {
    assert rest[0] == env.blueprint[|done|];
  }

  lemma {:induction false} PlanRefines(env: Env, c: Core, done: seq<Node>, rest: seq<Definition>)
    requires AtPlan(env, c, done, rest) && Resolvable(env.blueprint)
    ensures Leads(env, c, AfterPlan(c, done, RunPlan(env, rest, |done|, Outcomes(done), World(c.replies, c.executed))))
    decreases |rest|
  {
    hide Next, RunDefinition, Sound, NodeOutcomes, Outcomes, Leads, RunPlan, AfterPlan, AfterDefinition, AtPlan;
    var w := World(c.replies, c.executed);
    AtPlanSound(env, c, done, rest);
    LeadsOne(env, c);
    if rest == [] {
      PlanEnds(env, c, done);
    } else {
      var run := RunDefinition(env, rest[0], |done|, Outcomes(done), w);
      var c1 := AfterDefinition(c, |done|, run);
      FirstFindsOwn(env, c, done, rest);
      DefinitionRefines(env, c, done, rest);
      LeadsFinal(env, c, c1);
      if run.1.Onward? {
        PlanContinues(env, c, done, rest);
        PlanRefines(env, c1, done + [run.0], rest[1..]);
        LeadsTrans(env, c, c1, AfterPlan(c, done, RunPlan(env, rest, |done|, Outcomes(done), w)));
      } else {
        PlanStops(env, c, done, rest);
      }
    }
  }

  lemma PlanStops(env: Env, c: Core, done: seq<Node>, rest: seq<Definition>)
    requires AtPlan(env, c, done, rest) && rest != []
    requires RunDefinition(env, rest[0], |done|, Outcomes(done), World(c.replies, c.executed)).1.StopWith?
    ensures AfterDefinition(c, |done|,
                            RunDefinition(env, rest[0], |done|, Outcomes(done), World(c.replies, c.executed)))
         == AfterPlan(c, done, RunPlan(env, rest, |done|, Outcomes(done), World(c.replies, c.executed)))
  {
    hide Sound, RunDefinition, Outcomes, NodeOutcomes;
    var w := World(c.replies, c.executed);
    PlanUpdate(done, rest, RunDefinition(env, rest[0], |done|, Outcomes(done), w).0);
    DefinitionSettles(env, rest[0], |done|, Outcomes(done), w);
  }

  /** After a definition that let the run go on, the rest of the plan is what remains. */
  lemma PlanContinues(env: Env, c: Core, done: seq<Node>, rest: seq<Definition>)
    requires AtPlan(env, c, done, rest) && rest != []
    requires RunDefinition(env, rest[0], |done|, Outcomes(done), World(c.replies, c.executed)).1.Onward?
    requires Sound(env, AfterDefinition(c, |done|, RunDefinition(env, rest[0], |done|, Outcomes(done),
                                                                 World(c.replies, c.executed))))
    ensures var w := World(c.replies, c.executed);
            var run := RunDefinition(env, rest[0], |done|, Outcomes(done), w);
            var c1 := AfterDefinition(c, |done|, run);
            && AtPlan(env, c1, done + [run.0], rest[1..])
            && AfterPlan(c1, done + [run.0], RunPlan(env, rest[1..], |done + [run.0]|, Outcomes(done + [run.0]),
                                                     World(c1.replies, c1.executed)))
               == AfterPlan(c, done, RunPlan(env, rest, |done|, Outcomes(done), w))
  {
    hide Sound, RunDefinition, NodeOutcomes, Outcomes, RunPlan;
    var w := World(c.replies, c.executed);
    var run := RunDefinition(env, rest[0], |done|, Outcomes(done), w);
    PlanUpdate(done, rest, run.0);
    DefinitionSettles(env, rest[0], |done|, Outcomes(done), w);
    OutcomesLast(done, run.0);
    PlanUnfolds(env, rest, |done|, Outcomes(done), w);
    hide AtPlan;
    var tail := RunPlan(env, rest[1..], |done + [run.0]|, Outcomes(done + [run.0]), run.2);
    assert done + [run.0] + tail.nodes == done + ([run.0] + tail.nodes);
  }

  lemma OutcomesLast(done: seq<Node>, n: Node)
    ensures Outcomes(done + [n]) == Outcomes(done) + NodeOutcomes(n)
  {
    assert (done + [n])[..|done + [n]| - 1] == done;
    assert Last(done + [n]) == n;
  }

  lemma PlanUnfolds(env: Env, rest: seq<Definition>, pos: nat, history: seq<Outcome>, w: World)
    requires rest != [] && RunDefinition(env, rest[0], pos, history, w).1.Onward?
    ensures var run := RunDefinition(env, rest[0], pos, history, w);
            var tail := RunPlan(env, rest[1..], pos + 1, history + NodeOutcomes(run.0), run.2);
            RunPlan(env, rest, pos, history, w) == PlanRun([run.0] + tail.nodes, tail.ending, tail.world)
  {
    hide RunDefinition, NodeOutcomes;
  }

  lemma AtPlanSound(env: Env, c: Core, done: seq<Node>, rest: seq<Definition>)
    requires AtPlan(env, c, done, rest)
    ensures Sound(env, c) && |c.nodes| == |done| + |rest|
  {
  }

  lemma PlanEnds(env: Env, c: Core, done: seq<Node>)
    requires AtPlan(env, c, done, [])
    ensures Next(env, c) == AfterPlan(c, done, RunPlan(env, [], |done|, Outcomes(done), World(c.replies, c.executed)))
  {
    assert c.nodes == done && done + [] == done;
    FirstLiveIs(c.nodes, |done|);
  }

  // ---- the whole run ----

  lemma PlanRunnable(env: Env)
    requires Resolvable(env.blueprint)
    ensures Runnable(env.blueprint, PlanNodes(env.blueprint)) && !HasOpenAttempt(PlanNodes(env.blueprint))
  {
    var nodes := PlanNodes(env.blueprint);
    forall i | 0 <= i < |nodes|
      ensures RunnableNode(env.blueprint, nodes[i]) && !NodeHasOpenAttempt(nodes[i])
    {
      assert nodes[i] == PlanNode(env.blueprint[i]);
      assert FindsOwn(env.blueprint, env.blueprint[i]);
    }
  }

  /** The halted coordinator that holds what the interpreter computed. */
  function Finished(run: PlanRun): Core {
    Core(run.nodes, Halted(run.ending), run.world.replies, run.world.executed,
         run.ending.Returned? && run.ending != Returned(RunCompleted))
  }

  /** The run of a fresh plan is the interpreter's run of the blueprint: the same executed sequence with the same
      inputs, the same final tree, the same outcome, whatever the outside world replies. */
  lemma CoordinatorRefinesInterpreter(env: Env, replies: seq<Reply>)
    requires Resolvable(env.blueprint)
    ensures Runnable(env.blueprint, PlanNodes(env.blueprint))
    ensures Final(env, Loaded(PlanNodes(env.blueprint), replies))
         == Finished(RunPlan(env, env.blueprint, 0, [], World(replies, [])))
  {
    hide Next, RunPlan, NodeOutcomes;
    PlanRunnable(env);
    var nodes := PlanNodes(env.blueprint);
    var c := Loaded(nodes, replies);
    var c1 := c.(control := Ready);
    StartsReady(env, c);
    LeadsOne(env, c);
    assert [] + nodes == nodes && env.blueprint[0..] == env.blueprint;
    PlanRefines(env, c1, [], env.blueprint);
    var run := RunPlan(env, env.blueprint, 0, [], World(replies, []));
    assert [] + run.nodes == run.nodes;
    LeadsTrans(env, c, c1, AfterPlan(c1, [], run));
    LeadsFinal(env, c, AfterPlan(c1, [], run));
  }

  lemma StartsReady(env: Env, c: Core)
    requires Sound(env, c) && c.control.Starting? && !HasOpenAttempt(c.nodes)
    ensures Next(env, c) == c.(control := Ready)
  {
    RecoverNothing(c.nodes);
  }
}
