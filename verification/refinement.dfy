/** The state-driven coordinator computes what the recursive interpreter says: each construct of the
    interpreter is matched by a stretch of coordinator steps, whatever surrounds it in the tree. */
module Refinement {
  import opened StateModels
  import opened FailureRules
  import opened LoopPolicy
  import opened Projection
  import opened Transitions
  import opened Moves
  import opened Soundness
  import opened Solo
  import opened Interpreter

  /** Looking this definition up by its own id finds a definition that runs the same: the same step, or a loop with the
      same body. */
  predicate FindsOwn(defs: seq<Definition>, d: Definition) {
    match d
    case StepItem(step) => FindsStep(defs, step.id, step)
    case LoopItem(loop) => FindsBody(defs, loop.id, loop.body)
  }

  /** Every definition finds its own: ids are distinct, or clash only between definitions that run the same. */
  predicate Resolvable(defs: seq<Definition>) {
    forall i :: 0 <= i < |defs| ==> FindsOwn(defs, defs[i])
  }

  predicate DistinctIds(defs: seq<Definition>) {
    forall i, j :: 0 <= i < j < |defs| ==> DefinitionId(defs[i]) != DefinitionId(defs[j])
  }

  lemma {:induction false} LookupFirst(defs: seq<Definition>, i: nat)
    requires i < |defs| && forall j :: 0 <= j < i ==> DefinitionId(defs[j]) != DefinitionId(defs[i])
    ensures Lookup(defs, DefinitionId(defs[i])) == Some(defs[i])
  {
    if i > 0 { LookupFirst(defs[1..], i - 1); }
  }

  lemma DistinctIdsResolve(defs: seq<Definition>)
    requires DistinctIds(defs)
    ensures Resolvable(defs)
  {
    forall i | 0 <= i < |defs|
      ensures FindsOwn(defs, defs[i])
    {
      LookupFirst(defs, i);
    }
  }

  // ---- selecting a known place ----

  lemma {:induction false} FirstLiveIs(nodes: seq<Node>, k: nat)
    requires k <= |nodes| && forall i :: 0 <= i < k ==> Terminal(NodeStateOf(nodes[i]))
    requires k < |nodes| ==> !Terminal(NodeStateOf(nodes[k]))
    ensures FirstLive(nodes) == k
  {
    if k > 0 { FirstLiveIs(nodes[1..], k - 1); }
  }

  lemma {:induction false} FirstLiveLeafIs(leaves: seq<Leaf>, n: nat, k: nat)
    requires k <= n <= |leaves| && forall i :: 0 <= i < k ==> Terminal(leaves[i].state)
    requires k < n ==> !Terminal(leaves[k].state)
    ensures FirstLiveLeaf(leaves, n) == k
  {
    if k > 0 { FirstLiveLeafIs(leaves[1..], n - 1, k - 1); }
  }

  /** Replacing the selected leaf by another live one does not change what is selected. */
  lemma SelectStable(defs: seq<Definition>, nodes: seq<Node>, at: Target, step: StepDef, leaf: Leaf)
    requires Runnable(defs, nodes) && SelectMove(defs, nodes) == RunSlot(at, step)
    requires LeafAt(nodes, at) && !Terminal(leaf.state) && RunnableLeaf(leaf)
    requires at.Top? ==> leaf.id == GetLeaf(nodes, at).id
    ensures Runnable(defs, SetLeaf(nodes, at, leaf))
    ensures SelectMove(defs, SetLeaf(nodes, at, leaf)) == RunSlot(at, step)
  {
    RunnableSetLeaf(defs, nodes, at, leaf);
    var after := SetLeaf(nodes, at, leaf);
    FirstLiveIs(after, at.pos);
    if at.Body? {
      var before := Last(nodes[at.pos].iterations).steps;
      var steps := Last(after[at.pos].iterations).steps;
      assert steps == before[at.index := leaf];
      var body := Lookup(defs, nodes[at.pos].id).value.loop.body;
      FirstLiveLeafIs(steps, Min(|body|, |steps|), at.index);
    }
  }

  // ---- outcomes around a place ----

  lemma {:induction false} OutcomesSame(nodes: seq<Node>, i: nat, n: Node)
    requires i < |nodes| && NodeOutcomes(n) == NodeOutcomes(nodes[i])
    ensures Outcomes(nodes[i := n]) == Outcomes(nodes)
  {
    hide NodeOutcomes;
    var k := |nodes| - 1;
    if i == k {
      assert nodes[i := n][..k] == nodes[..k];
    } else {
      assert nodes[i := n][..k] == nodes[..k][i := n];
      OutcomesSame(nodes[..k], i, n);
    }
  }

  lemma {:induction false} LeavesOutcomesSame(leaves: seq<Leaf>, i: nat, leaf: Leaf)
    requires i < |leaves| && LeafOutcomes(leaf) == LeafOutcomes(leaves[i])
    ensures LeavesOutcomes(leaves[i := leaf]) == LeavesOutcomes(leaves)
  {
    hide LeafOutcomes;
    var k := |leaves| - 1;
    if i == k {
      assert leaves[i := leaf][..k] == leaves[..k];
    } else {
      assert leaves[i := leaf][..k] == leaves[..k][i := leaf];
      LeavesOutcomesSame(leaves[..k], i, leaf);
    }
  }

  /** Changing a leaf without changing its outcome changes no outcome. */
  lemma SetLeafOutcomes(nodes: seq<Node>, at: Target, leaf: Leaf)
    requires LeafAt(nodes, at) && LeafOutcomes(leaf) == LeafOutcomes(GetLeaf(nodes, at))
    ensures Outcomes(SetLeaf(nodes, at, leaf)) == Outcomes(nodes)
  {
    var n := SetLeaf(nodes, at, leaf)[at.pos];
    assert SetLeaf(nodes, at, leaf) == nodes[at.pos := n];
    if at.Body? {
      hide LeafOutcomes;
      var its := nodes[at.pos].iterations;
      var steps := Last(its).steps;
      LeavesOutcomesSame(steps, at.index, leaf);
      assert Last(n.iterations).steps == steps[at.index := leaf];
      assert n.iterations[..|its| - 1] == its[..|its| - 1];
    }
    OutcomesSame(nodes, at.pos, n);
  }

  lemma SetLeafTwice(nodes: seq<Node>, at: Target, a: Leaf, b: Leaf)
    requires LeafAt(nodes, at)
    ensures SetLeaf(SetLeaf(nodes, at, a), at, b) == SetLeaf(nodes, at, b)
    ensures IterationOf(SetLeaf(nodes, at, a), at) == IterationOf(nodes, at)
  {
    SetLeafAgain(nodes, at, a, b);
  }

  // ---- steps ----

  /** Where the coordinator stands once the interpreter has run the step at this place. */
  function ControlAfter(at: Target, end: End): Control {
    match end
    case Onward => Ready
    case StopWith(ending) => if ending == Returned(RunFailed) then FailedAt(at) else Halted(ending)
  }

  predicate Errs(end: End) {
    end.StopWith? && end.ending.Returned?
  }

  function AfterStep(c: Core, at: Target, run: StepRun): Core
    requires LeafAt(c.nodes, at)
  {
    Core(SetLeaf(c.nodes, at, run.leaf), ControlAfter(at, run.end), run.world.replies, run.world.executed,
         c.hasError || Errs(run.end))
  }

  predicate AtOpenAttempt(env: Env, c: Core, at: Target, step: StepDef, earlier: seq<Attempt>, number: nat) {
    && Sound(env, c) && c.control.Ready? && LeafAt(c.nodes, at)
    && SelectMove(env.blueprint, c.nodes) == RunSlot(at, step)
    && GetLeaf(c.nodes, at) == Leaf(step.id, step.name, Running, earlier + [Attempt(number, None)])
  }

  /** The coordinator after the external call of an open attempt, before the result is settled. */
  function Called(c: Core, at: Target, step: StepDef): Core
    requires LeafAt(c.nodes, at) && GetLeaf(c.nodes, at).attempts != []
  {
    c.(executed := c.executed + [ExecutionOf(c.nodes, at, step)],
       replies := if c.replies == [] then [] else c.replies[1..])
  }

  lemma NextBeginsAttempt(env: Env, c: Core, at: Target, step: StepDef)
    requires Sound(env, c) && c.control.Ready? && SelectMove(env.blueprint, c.nodes) == RunSlot(at, step)
    requires LeafAt(c.nodes, at) && GetLeaf(c.nodes, at).state.Pending?
    ensures Next(env, c) == BeginAttempt(c, at, 1, None).core
  {
    hide SelectMove, Runnable, SetLeaf, RunAttempt, Gate;
  }

  lemma NextRunsAttempt(env: Env, c: Core, at: Target, step: StepDef, earlier: seq<Attempt>, number: nat)
    requires AtOpenAttempt(env, c, at, step, earlier, number)
    ensures Next(env, c) == RunAttempt(env, c, at, step).core
  {
    hide RunAttempt;
  }

  lemma AttemptsAfter(earlier: seq<Attempt>, a: Attempt, b: Attempt)
    ensures WithLast(earlier + [a], b) == earlier + [b] && Last(earlier + [a]) == a
  {
  }

  /** The coordinator runs an open attempt, and everything its failure leads to, exactly as the interpreter
      runs the step. */
  lemma {:induction false} StepRefines(env: Env, c: Core, at: Target, step: StepDef, earlier: seq<Attempt>,
                                       number: nat, history: seq<Outcome>)
    requires AtOpenAttempt(env, c, at, step, earlier, number) && Outcomes(c.nodes) == history
    ensures Leads(env, c, AfterStep(c, at, RunStep(env, step, SpotOf(c.nodes, at), earlier, number, history,
                                                   World(c.replies, c.executed))))
    decreases |c.replies|, 2
  {
    var w := World(c.replies, c.executed);
    var run := RunStep(env, step, SpotOf(c.nodes, at), earlier, number, history, w);
    var leaf := GetLeaf(c.nodes, at);
    NextRunsAttempt(env, c, at, step, earlier, number);
    LeadsOne(env, c);
    if c.replies == [] || c.replies[0].Interrupt? || c.replies[0].result.Ok() {
      StepSettles(env, c, at, step, earlier, number, history);
    } else {
      FailureRefines(env, c, at, step, earlier, number, history);
    }
  }

  /** The cases one proposal settles: death, cancellation and success. */
  lemma StepSettles(env: Env, c: Core, at: Target, step: StepDef, earlier: seq<Attempt>, number: nat,
                    history: seq<Outcome>)
    requires AtOpenAttempt(env, c, at, step, earlier, number) && Outcomes(c.nodes) == history
    requires c.replies == [] || c.replies[0].Interrupt? || c.replies[0].result.Ok()
    ensures RunAttempt(env, c, at, step).core
         == AfterStep(c, at, RunStep(env, step, SpotOf(c.nodes, at), earlier, number, history,
                                     World(c.replies, c.executed)))
  {
    hide SelectMove, Gate, OnStepFailure, Runnable, IterationOf, SetLeaf, Outcomes, Numbered;
    var leaf := GetLeaf(c.nodes, at);
    if c.replies == [] {
      assert SetLeaf(c.nodes, at, leaf) == c.nodes by { SetLeafSame(c.nodes, at); }
    } else if c.replies[0].Reply? {
      var result := c.replies[0].result;
      var recorded := RecordResult(leaf, result);
      SetLeafTwice(c.nodes, at, recorded,
                   recorded.(state := if result.status.ResultIgnored? then Ignored else Completed));
      AttemptsAfter(earlier, Attempt(number, None), Attempt(result.attempts, Some(result)));
      AttemptsAfter(earlier, Attempt(result.attempts, Some(result)), Attempt(result.attempts, Some(result)));
    }
  }

  lemma SetLeafSame(nodes: seq<Node>, at: Target)
    requires LeafAt(nodes, at)
    ensures SetLeaf(nodes, at, GetLeaf(nodes, at)) == nodes
  {
    if at.Body? {
      var its := nodes[at.pos].iterations;
      var it := Last(its);
      assert it.steps[at.index := GetLeaf(nodes, at)] == it.steps;
      assert WithLast(its, it) == its;
    }
  }

  lemma {:induction false} FailureRefines(env: Env, c: Core, at: Target, step: StepDef, earlier: seq<Attempt>,
                                          number: nat, history: seq<Outcome>)
    requires AtOpenAttempt(env, c, at, step, earlier, number) && Outcomes(c.nodes) == history
    requires c.replies != [] && c.replies[0].Reply? && !c.replies[0].result.Ok()
    ensures Leads(env, c, AfterStep(c, at, RunStep(env, step, SpotOf(c.nodes, at), earlier, number, history,
                                                   World(c.replies, c.executed))))
    decreases |c.replies|, 1
  {
    hide Runnable, SelectMove, ApplyMove, SetLeaf;
    var result := c.replies[0].result;
    var leaf := RecordResult(GetLeaf(c.nodes, at), result);
    var c1 := Called(c, at, step).(nodes := SetLeaf(c.nodes, at, leaf));
    AttemptsAfter(earlier, Attempt(number, None), Attempt(result.attempts, Some(result)));
    assert RunAttempt(env, c, at, step) == Gate(env, c1, at, step);
    NextRunsAttempt(env, c, at, step, earlier, number);
    LeadsOne(env, c);
    if Asks(step.onFailure) && env.Interactive() {
      var paused := leaf.(state := Paused);
      var c2 := c1.(nodes := SetLeaf(c.nodes, at, paused), control := Prompting(at));
      assert paused == PausedLeaf(step, earlier, result);
      SetLeafTwice(c.nodes, at, leaf, paused);
      assert Next(env, c) == c2;
      PromptRefines(env, c, c2, at, step, earlier, number, result, history);
      LeadsTrans(env, c, c2, AfterStep(c, at, RunStep(env, step, SpotOf(c.nodes, at), earlier, number, history,
                                                      World(c.replies, c.executed))));
    } else {
      GateSettles(env, c, c1, at, step, earlier, number, result, history);
    }
  }

  /** A failure no one is asked about is settled by the same proposal. */
  lemma GateSettles(env: Env, c: Core, c1: Core, at: Target, step: StepDef, earlier: seq<Attempt>, number: nat,
                    result: StepResult, history: seq<Outcome>)
    requires AtOpenAttempt(env, c, at, step, earlier, number) && Outcomes(c.nodes) == history
    requires c.replies != [] && c.replies[0].Reply? && c.replies[0].result == result && !result.Ok()
    requires !(Asks(step.onFailure) && env.Interactive())
    requires c1 == Called(c, at, step).(nodes := SetLeaf(c.nodes, at, RecordResult(GetLeaf(c.nodes, at), result)))
    ensures Gate(env, c1, at, step).core
         == AfterStep(c, at, RunStep(env, step, SpotOf(c.nodes, at), earlier, number, history,
                                     World(c.replies, c.executed)))
  {
    hide SelectMove, Runnable, SetLeaf, IterationOf, Outcomes;
    var leaf := RecordResult(GetLeaf(c.nodes, at), result);
    AttemptsAfter(earlier, Attempt(number, None), Attempt(result.attempts, Some(result)));
    AttemptsAfter(earlier, Attempt(result.attempts, Some(result)),
                  Attempt(result.attempts, Some(MarkContinued(result))));
    SetLeafTwice(c.nodes, at, leaf, leaf.(state := Failed));
    SetLeafTwice(c.nodes, at, leaf,
                 leaf.(state := Ignored,
                       attempts := earlier + [Attempt(result.attempts, Some(MarkContinued(result)))]));
  }

  /** An open prompt: c is the core before the attempt ran, c2 the one that committed the pause. */
  predicate AtPrompt(env: Env, c: Core, c2: Core, at: Target, step: StepDef, earlier: seq<Attempt>, number: nat,
                     result: StepResult)
  {
    && AtOpenAttempt(env, c, at, step, earlier, number) && Sound(env, c2)
    && c.replies != [] && c.replies[0].Reply? && c.replies[0].result == result && !result.Ok()
    && Asks(step.onFailure) && env.Interactive()
    && c2 == Called(c, at, step).(control := Prompting(at),
                                  nodes := SetLeaf(c.nodes, at, PausedLeaf(step, earlier, result)))
  }

  function PausedLeaf(step: StepDef, earlier: seq<Attempt>, result: StepResult): Leaf {
    Leaf(step.id, step.name, Paused, earlier + [Attempt(result.attempts, Some(result))])
  }

  function FinishedAttempts(earlier: seq<Attempt>, result: StepResult): seq<Attempt> {
    earlier + [Attempt(result.attempts, Some(result))]
  }

  /** The core that committed the attempt a retry begins. */
  function Retried(c: Core, c2: Core, at: Target, step: StepDef, earlier: seq<Attempt>, result: StepResult): Core
    requires LeafAt(c.nodes, at) && c2.replies != []
  {
    var again := Leaf(step.id, step.name, Running,
                      FinishedAttempts(earlier, result) + [Attempt(result.attempts + 1, None)]);
    c2.(nodes := SetLeaf(c.nodes, at, again), control := Ready, replies := c2.replies[1..])
  }

  lemma {:induction false} PromptRefines(env: Env, c: Core, c2: Core, at: Target, step: StepDef,
                                         earlier: seq<Attempt>, number: nat, result: StepResult, history: seq<Outcome>)
    requires AtPrompt(env, c, c2, at, step, earlier, number, result) && Outcomes(c.nodes) == history
    ensures Leads(env, c2, AfterStep(c, at, RunStep(env, step, SpotOf(c.nodes, at), earlier, number, history,
                                                    World(c.replies, c.executed))))
    decreases |c.replies|, 0
  {
    hide RunStep, OnStepFailure, Next, SetLeaf, SelectMove, Runnable;
    var run := RunStep(env, step, SpotOf(c.nodes, at), earlier, number, history, World(c.replies, c.executed));
    PromptUnfolds(env, c, c2, at, step, earlier, number, result, history);
    LeadsOne(env, c2);
    NextAnswers(env, c2, at);
    if c2.replies == [] || c2.replies[0].Interrupt? || !c2.replies[0].step.DecideRetry? {
      PromptSettles(env, c, c2, at, step, earlier, number, result, history);
    } else {
      var c3 := Retried(c, c2, at, step, earlier, result);
      PromptReopens(env, c, c2, at, step, earlier, number, result, history);
      StepRefines(env, c3, at, step, FinishedAttempts(earlier, result), result.attempts + 1, history);
      SetLeafTwice(c.nodes, at, GetLeaf(c3.nodes, at), run.leaf);
      assert AfterStep(c3, at, run) == AfterStep(c, at, run);
      LeadsTrans(env, c2, c3, AfterStep(c, at, run));
    }
  }

  lemma NextAnswers(env: Env, c: Core, at: Target)
    requires Sound(env, c) && c.control == Prompting(at)
    ensures Next(env, c) == AnswerPrompt(env, c, at).core
  {
    hide AnswerPrompt, Runnable;
  }

  lemma PromptUnfolds(env: Env, c: Core, c2: Core, at: Target, step: StepDef, earlier: seq<Attempt>, number: nat,
                      result: StepResult, history: seq<Outcome>)
    requires AtPrompt(env, c, c2, at, step, earlier, number, result) && Outcomes(c.nodes) == history
    ensures RunStep(env, step, SpotOf(c.nodes, at), earlier, number, history, World(c.replies, c.executed))
         == OnStepFailure(env, step, SpotOf(c.nodes, at), earlier, result, history, World(c2.replies, c2.executed))
  {
    hide SelectMove, Runnable, OnStepFailure;
  }

  lemma PromptReopens(env: Env, c: Core, c2: Core, at: Target, step: StepDef, earlier: seq<Attempt>, number: nat,
                      result: StepResult, history: seq<Outcome>)
    requires AtPrompt(env, c, c2, at, step, earlier, number, result) && Outcomes(c.nodes) == history
    requires c2.replies != [] && c2.replies[0].Reply? && c2.replies[0].step.DecideRetry?
    ensures var c3 := Retried(c, c2, at, step, earlier, result);
            && Next(env, c2) == c3 && Outcomes(c3.nodes) == history
            && AtOpenAttempt(env, c3, at, step, FinishedAttempts(earlier, result), result.attempts + 1)
            && SpotOf(c3.nodes, at) == SpotOf(c.nodes, at)
            && OnStepFailure(env, step, SpotOf(c.nodes, at), earlier, result, history, World(c2.replies, c2.executed))
               == RunStep(env, step, SpotOf(c.nodes, at), FinishedAttempts(earlier, result), result.attempts + 1,
                          history, World(c3.replies, c3.executed))
  {
    hide RunStep, Runnable, SelectMove, ApplyMove, Outcomes;
    var again := GetLeaf(Retried(c, c2, at, step, earlier, result).nodes, at);
    PromptRetries(env, c, c2, at, step, earlier, number, result, again);
    SelectStable(env.blueprint, c.nodes, at, step, again);
    SetLeafOutcomes(c.nodes, at, again);
    SetLeafTwice(c.nodes, at, again, again);
  }

  lemma PromptRetries(env: Env, c: Core, c2: Core, at: Target, step: StepDef, earlier: seq<Attempt>, number: nat,
                      result: StepResult, again: Leaf)
    requires AtPrompt(env, c, c2, at, step, earlier, number, result)
    requires c2.replies != [] && c2.replies[0].Reply? && c2.replies[0].step.DecideRetry?
    requires again == Leaf(step.id, step.name, Running,
                           FinishedAttempts(earlier, result) + [Attempt(result.attempts + 1, None)])
    ensures Next(env, c2) == c2.(nodes := SetLeaf(c.nodes, at, again), control := Ready, replies := c2.replies[1..])
  {
    hide SelectMove, Runnable, ApplyMove;
    SetLeafTwice(c.nodes, at, PausedLeaf(step, earlier, result), again);
    assert Next(env, c2) == AnswerPrompt(env, c2, at).core;
  }

  lemma PromptSettles(env: Env, c: Core, c2: Core, at: Target, step: StepDef, earlier: seq<Attempt>, number: nat,
                      result: StepResult, history: seq<Outcome>)
    requires AtPrompt(env, c, c2, at, step, earlier, number, result) && Outcomes(c.nodes) == history
    requires c2.replies == [] || c2.replies[0].Interrupt? || !c2.replies[0].step.DecideRetry?
    ensures AnswerPrompt(env, c2, at).core
         == AfterStep(c, at, OnStepFailure(env, step, SpotOf(c.nodes, at), earlier, result, history,
                                           World(c2.replies, c2.executed)))
  {
    hide SelectMove, Runnable, RunStep, Sound, NodeOutcomes, SetLeaf, Outcomes;
    var paused := PausedLeaf(step, earlier, result);
    var marked := Attempt(result.attempts, Some(MarkContinued(result)));
    AttemptsAfter(earlier, Attempt(result.attempts, Some(result)), marked);
    SetLeafTwice(c.nodes, at, paused, Leaf(step.id, step.name, Ignored, earlier + [marked]));
    SetLeafTwice(c.nodes, at, paused, paused.(state := Failed));
  }
}
