/** Failure policies over whole runs: how a leaf can end is what its step's failure specification says, and where
    someone is asked, what was answered. */
module Policies {
  import opened StateModels
  import opened FailureRules
  import opened LoopPolicy
  import opened Projection
  import opened Transitions
  import opened Solo
  import opened Refinement
  import opened Moves
  import opened Frontier
  import opened Guarantees
  import opened Restart

  /** The step defined for this place. */
  predicate Defined(defs: seq<Definition>, p: Place) {
    p.pos < |defs| &&
    match p
    case StepPlace(pos) => defs[pos].StepItem?
    case BodyPlace(pos, _, j) => defs[pos].LoopItem? && j < |defs[pos].loop.body|
  }

  function StepOf(defs: seq<Definition>, p: Place): StepDef
    requires Defined(defs, p)
  {
    match p
    case StepPlace(pos) => defs[pos].step
    case BodyPlace(pos, _, j) => defs[pos].loop.body[j]
  }

  predicate LastSays(leaf: Leaf, status: ResultStatus) {
    leaf.attempts != [] && Last(leaf.attempts).result.Some? && Last(leaf.attempts).result.value.status == status
  }

  predicate LastContinued(leaf: Leaf) {
    leaf.attempts != [] && Last(leaf.attempts).result.Some?
    && Last(leaf.attempts).result.value.diagnostic.UserContinued?
  }

  /** A leaf's state and last result agree. Under continue it never ends failed; it ends ignored only under continue, or
      under prompt_user when it was continued. */
  predicate EndsAsToldBy(step: StepDef, leaf: Leaf) {
    && (leaf.state.Completed? ==> LastSays(leaf, ResultCompleted))
    && (leaf.state.Paused? ==> LastSays(leaf, ResultFailed))
    && (leaf.state.Failed? ==> LastSays(leaf, ResultFailed) && !GoesOn(step.onFailure))
    && (leaf.state.Ignored? ==>
          LastSays(leaf, ResultIgnored) && (GoesOn(step.onFailure) || (Asks(step.onFailure) && LastContinued(leaf))))
  }

  ghost predicate Obeyed(env: Env, nodes: seq<Node>) {
    forall p: Place :: HasLeaf(nodes, p) ==>
      Defined(env.blueprint, p) && EndsAsToldBy(StepOf(env.blueprint, p), LeafOf(nodes, p))
  }

  /** The result about to be returned is ignored only under continue, as step execution has it. */
  predicate Plausible(env: Env, c: Core)
    requires Sound(env, c)
  {
    InCall(env, c) && c.replies != [] && c.replies[0].Reply? && c.replies[0].result.status.ResultIgnored? ==>
      GoesOn(SelectMove(env.blueprint, c.nodes).step.onFailure)
  }

  // ---- leaves ----

  lemma ActionObeys(c: Core, at: Target, step: StepDef, answer: StepDecision)
    requires LeafAt(c.nodes, at) && GetLeaf(c.nodes, at).state.Paused?
    requires EndsAsToldBy(step, GetLeaf(c.nodes, at)) && Asks(step.onFailure)
    ensures var (action, r) := ApplyPromptDecision(answer, Last(GetLeaf(c.nodes, at).attempts).result.value);
            var b := GetLeaf(ApplyAction(c, at, action, r, Some(RunRunning)).core.nodes, at);
            && EndsAsToldBy(step, b) && (b.state.Ignored? <==> answer.DecideContinue?)
            && (b.state.Failed? <==> answer.DecideAbort?) && (b.state.Running? <==> answer.DecideRetry?)
  {
    hide SetLeaf;
  }

  lemma GateObeys(env: Env, c: Core, at: Target, step: StepDef)
    requires LeafAt(c.nodes, at) && LastSays(GetLeaf(c.nodes, at), ResultFailed)
    ensures LeafAt(Gate(env, c, at, step).core.nodes, at)
    ensures var b := GetLeaf(Gate(env, c, at, step).core.nodes, at);
            && EndsAsToldBy(step, b) && (b.state.Ignored? <==> GoesOn(step.onFailure))
            && (b.state.Paused? <==> Asks(step.onFailure) && env.Interactive())
            && (b.state.Failed? <==> !GoesOn(step.onFailure) && !(Asks(step.onFailure) && env.Interactive()))
  {
    hide SetLeaf;
  }

  /** A settled attempt: both layers read the policy alike. */
  lemma SettleObeys(env: Env, c: Core, at: Target, step: StepDef, r: StepResult)
    requires LeafAt(c.nodes, at) && GetLeaf(c.nodes, at).attempts != []
    requires r.status.ResultIgnored? ==> GoesOn(step.onFailure)
    ensures LeafAt(Settle(env, c, at, step, r).core.nodes, at)
    ensures var b := GetLeaf(Settle(env, c, at, step, r).core.nodes, at);
            && EndsAsToldBy(step, b)
            && (b.state.Completed? <==> r.status.ResultCompleted?)
            && (b.state.Ignored? <==> !r.status.ResultCompleted? && GoesOn(step.onFailure))
            && (b.state.Paused? <==> r.status.ResultFailed? && Asks(step.onFailure) && env.Interactive())
            && (b.state.Failed? <==>
                  r.status.ResultFailed? && !GoesOn(step.onFailure) && !(Asks(step.onFailure) && env.Interactive()))
  {
    hide Gate;
    var c1 := c.(nodes := SetLeaf(c.nodes, at, RecordResult(GetLeaf(c.nodes, at), r)));
    if r.status.ResultFailed? { GateObeys(env, c1, at, step); }
    hide SetLeaf;
  }

  /** What decides that a leaf of a slot ends ignored, and that it ends failed. */
  predicate Continued(env: Env, c: Core, at: Target, step: StepDef)
    requires LeafAt(c.nodes, at)
  {
    var leaf := GetLeaf(c.nodes, at);
    if c.control.Prompting? then c.replies != [] && c.replies[0].Reply? && c.replies[0].step.DecideContinue?
    else GoesOn(step.onFailure) && (leaf.state.Paused? || FailsNow(c, leaf))
  }

  /** The leaf's attempt runs now and does not complete. */
  predicate FailsNow(c: Core, leaf: Leaf) {
    leaf.state.Running? && c.replies != [] && c.replies[0].Reply? && !c.replies[0].result.status.ResultCompleted?
  }

  predicate Aborted(env: Env, c: Core, at: Target, step: StepDef)
    requires LeafAt(c.nodes, at)
  {
    var leaf := GetLeaf(c.nodes, at);
    if c.control.Prompting? then c.replies != [] && c.replies[0].Reply? && c.replies[0].step.DecideAbort?
    else
      && !GoesOn(step.onFailure) && !(Asks(step.onFailure) && env.Interactive())
      && (leaf.state.Paused? || FailsNow(c, leaf))
  }

  /** The slot of a run: the step selected, or the one its prompt is open on. */
  ghost predicate AtSlot(env: Env, c: Core, k: nat, at: Target, step: StepDef)
    requires Sound(env, c)
  {
    && (if c.control.Prompting? then c.control.at == at
        else c.control.Ready? && SelectMove(env.blueprint, c.nodes) == RunSlot(at, step))
    && LiveTree(env, c.nodes, k) && AtFrontier(env, c.nodes, k, at, step) && LeafAt(c.nodes, at)
    && (c.control.Prompting? ==> PromptOpen(env, c.nodes, k, at, step))
  }

  /** How the leaf of the slot ends, exactly. */
  lemma SlotEnds(env: Env, c: Core, k: nat, at: Target, step: StepDef)
    requires AtWork(env, c, k) && Sound(env, c) && AtSlot(env, c, k, at, step) && Plausible(env, c)
    requires EndsAsToldBy(step, GetLeaf(c.nodes, at))
    ensures LeafAt(Next(env, c).nodes, at) && EndsAsToldBy(step, GetLeaf(Next(env, c).nodes, at))
    ensures GetLeaf(Next(env, c).nodes, at).state.Ignored? <==> Continued(env, c, at, step)
    ensures GetLeaf(Next(env, c).nodes, at).state.Failed? <==> Aborted(env, c, at, step)
  {
    hide LiveTree, AtFrontier, Runnable, EndsAsToldBy, Next, ApplyAction, SelectMove, AdvanceSlot;
    var leaf := GetLeaf(c.nodes, at);
    FrontierLeaf(env, c.nodes, k, at, step);
    if c.control.Prompting? {
      NextAnswers(env, c, at);
      if c.replies != [] && c.replies[0].Reply? {
        ActionObeys(c.(replies := c.replies[1..]), at, step, c.replies[0].step);
        var (action, r) := ApplyPromptDecision(c.replies[0].step, Last(leaf.attempts).result.value);
        ActionEffect(c.(replies := c.replies[1..]), at, action, r, Some(RunRunning));
      }
    } else {
      SlotSelected(env, c.nodes, at, step);
      NextIsSlot(env, c, at, step);
      CallEnds(env, c, at, step);
    }
  }

  lemma CallEnds(env: Env, c: Core, at: Target, step: StepDef)
    requires LeafAt(c.nodes, at) && RunnableLeaf(GetLeaf(c.nodes, at)) && !Terminal(GetLeaf(c.nodes, at).state)
    requires c.control.Ready? && EndsAsToldBy(step, GetLeaf(c.nodes, at))
    requires FailsNow(c, GetLeaf(c.nodes, at)) && c.replies[0].result.status.ResultIgnored? ==>
               GoesOn(step.onFailure)
    ensures var c1 := AdvanceSlot(env, c, at, step).core;
            && LeafAt(c1.nodes, at) && EndsAsToldBy(step, GetLeaf(c1.nodes, at))
            && (GetLeaf(c1.nodes, at).state.Ignored? <==> Continued(env, c, at, step))
            && (GetLeaf(c1.nodes, at).state.Failed? <==> Aborted(env, c, at, step))
  {
    hide Gate, Settle, SetLeaf, Outcomes, Numbered;
    var leaf := GetLeaf(c.nodes, at);
    if leaf.state.Paused? {
      GateObeys(env, c, at, step);
      GateEffect(env, c, at, step);
    } else if leaf.state.Running? && c.replies != [] && c.replies[0].Reply? {
      var c2 := c.(executed := c.executed + [ExecutionOf(c.nodes, at, step)], replies := c.replies[1..]);
      SettleObeys(env, c2, at, step, c.replies[0].result);
      SettledEffect(env, c2, at, step, c.replies[0].result);
    }
  }

  // ---- trees ----

  lemma FrontierDefined(env: Env, nodes: seq<Node>, k: nat, at: Target, step: StepDef)
    requires AtFrontier(env, nodes, k, at, step) && LeafAt(nodes, at)
    ensures Defined(env.blueprint, PlaceOf(nodes, at)) && StepOf(env.blueprint, PlaceOf(nodes, at)) == step
  {
    hide LoopRunningAt;
  }

  lemma FindSlot(env: Env, c: Core, k: nat, at: Target) returns (step: StepDef)
    requires Resolvable(env.blueprint) && AtWork(env, c, k) && Sound(env, c)
    requires c.control == Prompting(at)
             || (c.control.Ready? && SelectMove(env.blueprint, c.nodes).RunSlot?
                 && SelectMove(env.blueprint, c.nodes).at == at)
    ensures AtSlot(env, c, k, at, step)
  {
    if c.control.Prompting? {
      step :| PromptOpen(env, c.nodes, k, at, step);
    } else {
      step := SelectMove(env.blueprint, c.nodes).step;
      SlotAtFrontier(env, c.nodes, k, at, step);
      FrontierLeaf(env, c.nodes, k, at, step);
    }
  }

  lemma RecoveryObeys(step: StepDef, leaf: Leaf)
    requires EndsAsToldBy(step, leaf)
    ensures EndsAsToldBy(step, RecoverLeaf(leaf))
  {
  }

  lemma PendingObeys(step: StepDef, leaf: Leaf)
    requires leaf.state.Pending?
    ensures EndsAsToldBy(step, leaf)
  {
  }

  /** Every leaf of a committed tree has a definition at its place. */
  lemma CommittedDefined(env: Env, nodes: seq<Node>, k: nat, p: Place)
    requires Committed(env, nodes, k) && HasLeaf(nodes, p)
    ensures Defined(env.blueprint, p)
  {
    hide DoneLoop, LiveLoop, BrokenLoop;
    var d := env.blueprint[p.pos];
    if p.pos > k { PlanIsLive(env, d); }
    if d.LoopItem? {
      IsLoop(env, d.loop, nodes[p.pos]);
      BodyLength(env, d.loop, nodes[p.pos], p.iteration);
    }
  }

  lemma BodyLength(env: Env, loop: LoopDef, n: Node, i: nat)
    requires DoneLoop(env, loop, n) || LiveLoop(env, loop, n) || BrokenLoop(env, loop, n)
    requires n.LoopNode? && i < |n.iterations|
    ensures |n.iterations[i].steps| == |loop.body|
  {
    hide UntilHolds, DoneLeaf;
    if n != PlanNode(LoopItem(loop)) && i < |n.iterations| - 1 {
      assert ClosedIteration(env, loop, n.iterations[i], i + 1);
    }
  }

  /** The leaf of the slot after the step, by its own step's definition. */
  lemma SlotObeys(env: Env, c: Core, k: nat, at: Target, leaf: Leaf)
    requires Resolvable(env.blueprint) && AtWork(env, c, k) && Sound(env, c) && Plausible(env, c)
    requires LeafAt(c.nodes, at) && Placed(env, c, LeafChange(at, leaf))
    requires Next(env, c).nodes == SetLeaf(c.nodes, at, leaf)
    requires Defined(env.blueprint, PlaceOf(c.nodes, at))
    requires EndsAsToldBy(StepOf(env.blueprint, PlaceOf(c.nodes, at)), GetLeaf(c.nodes, at))
    ensures EndsAsToldBy(StepOf(env.blueprint, PlaceOf(c.nodes, at)), leaf)
  {
    hide Runnable, SelectMove, Next, EndsAsToldBy, Plausible, AtWork;
    var step := FindSlot(env, c, k, at);
    FrontierDefined(env, c.nodes, k, at, step);
    SlotEnds(env, c, k, at, step);
  }

  lemma ObeyedKept(env: Env, c: Core, k: nat)
    requires Resolvable(env.blueprint) && AtWork(env, c, k) && Sound(env, c) && Plausible(env, c)
    requires Obeyed(env, c.nodes)
    ensures Obeyed(env, Next(env, c).nodes)
  {
    var k1 := ProposeKeeps(env, c, k);
    AtWorkCommits(env, Next(env, c), k1);
    var change := NextChanges(env, c);
    hide Next, Runnable, SelectMove, Plausible, AtWork, Committed, EndsAsToldBy, Changed;
    var after := Next(env, c).nodes;
    forall p: Place | HasLeaf(after, p)
      ensures Defined(env.blueprint, p) && EndsAsToldBy(StepOf(env.blueprint, p), LeafOf(after, p))
    {
      CommittedDefined(env, after, k1, p);
      ChangedLeaf(c.nodes, change, p);
      LeafObeys(env, c, k, change, p);
    }
  }

  lemma LeafObeys(env: Env, c: Core, k: nat, change: Change, p: Place)
    requires Resolvable(env.blueprint) && AtWork(env, c, k) && Sound(env, c) && Plausible(env, c)
    requires Obeyed(env, c.nodes) && Defined(env.blueprint, p)
    requires Allowed(c.nodes, change) && Next(env, c).nodes == Changed(c.nodes, change) && Placed(env, c, change)
    requires HasLeaf(Changed(c.nodes, change), p)
    ensures EndsAsToldBy(StepOf(env.blueprint, p), LeafOf(Changed(c.nodes, change), p))
  {
    hide Next, Runnable, SelectMove, Plausible, AtWork, EndsAsToldBy;
    ChangedLeaf(c.nodes, change, p);
    var step := StepOf(env.blueprint, p);
    var b := LeafOf(Changed(c.nodes, change), p);
    match change
    case Same =>
    case Recovered => RecoveryObeys(step, LeafOf(c.nodes, p));
    case LoopChange(_, _) => if !HasLeaf(c.nodes, p) { PendingObeys(step, b); }
    case LeafChange(at, leaf) => if p == PlaceOf(c.nodes, at) { SlotObeys(env, c, k, at, leaf); }
  }


  // ---- runs ----

  ghost predicate PlausibleFor(env: Env, c: Core, n: nat)
    requires Sound(env, c)
  {
    forall i: nat :: i < n ==> Plausible(env, Steps(env, c, i))
  }

  /** Every tree of a run whose results are plausible obeys its policies: no leaf under continue ever failed, none under
      abort was ever ignored, and one under prompt_user only when someone continued it. */
  lemma {:induction false} PoliciesHold(env: Env, c: Core, k: nat, n: nat) returns (k': nat)
    requires Resolvable(env.blueprint) && AtWork(env, c, k) && Sound(env, c) && Obeyed(env, c.nodes)
    requires PlausibleFor(env, c, n)
    ensures Obeyed(env, Steps(env, c, n).nodes) && AtWork(env, Steps(env, c, n), k')
    decreases n
  {
    hide Next, AtWork, Obeyed, Plausible, Sound;
    k' := k;
    if n > 0 {
      assert Steps(env, c, 0) == c;
      ObeyedKept(env, c, k);
      k' := ProposeKeeps(env, c, k);
      forall i: nat | i < n - 1
        ensures Plausible(env, Steps(env, Next(env, c), i))
      {
        assert Steps(env, c, i + 1) == Steps(env, Next(env, c), i);
      }
      k' := PoliciesHold(env, Next(env, c), k', n - 1);
    }
  }

  lemma PlanObeys(env: Env)
    ensures Obeyed(env, PlanNodes(env.blueprint))
  {
    var nodes := PlanNodes(env.blueprint);
    forall p: Place | HasLeaf(nodes, p)
      ensures Defined(env.blueprint, p) && EndsAsToldBy(StepOf(env.blueprint, p), LeafOf(nodes, p))
    {
      assert nodes[p.pos] == PlanNode(env.blueprint[p.pos]);
    }
  }

  ghost predicate PlausibleLives(env: Env, nodes: seq<Node>, lives: seq<Life>)
    requires Crashes(env, nodes, lives)
    decreases |lives|
  {
    lives != [] ==>
      && (LoadedSound(env, nodes, lives[0].replies);
          PlausibleFor(env, Loaded(nodes, lives[0].replies), lives[0].steps))
      && PlausibleLives(env, DeathOf(env, nodes, lives[0]).nodes, lives[1..])
  }

  /** And so does the tree that any number of processes leave, dying between two commits or at an open prompt. */
  lemma {:induction false} PoliciesOutliveProcesses(env: Env, nodes: seq<Node>, lives: seq<Life>)
    requires Crashes(env, nodes, lives) && PlausibleLives(env, nodes, lives) && Obeyed(env, nodes)
    ensures Obeyed(env, TreeAfter(env, nodes, lives))
    decreases |lives|
  {
    hide Next, AtWork, Obeyed, Plausible, Runnable, LiveTree, Steps;
    if lives != [] {
      var k := DrivableSound(env, nodes, lives[0].replies);
      var _ := PoliciesHold(env, Loaded(nodes, lives[0].replies), k, lives[0].steps);
      PoliciesOutliveProcesses(env, DeathOf(env, nodes, lives[0]).nodes, lives[1..]);
    }
  }

  lemma SlotKept(env: Env, c: Core, k: nat, at: Target, step: StepDef)
    requires Sound(env, c) && AtSlot(env, c, k, at, step)
    ensures LeafAt(c.nodes, at) && LeafAt(Next(env, c).nodes, at)
    ensures PlaceOf(Next(env, c).nodes, at) == PlaceOf(c.nodes, at)
  {
    if c.control.Prompting? {
      hide LiveTree, AtFrontier, Runnable;
      NextAnswers(env, c, at);
      hide Next;
      if c.replies != [] && c.replies[0].Reply? {
        var (action, r) := ApplyPromptDecision(c.replies[0].step, Last(GetLeaf(c.nodes, at).attempts).result.value);
        ActionEffect(c.(replies := c.replies[1..]), at, action, r, Some(RunRunning));
        PlaceStays(c.nodes, at, GetLeaf(Next(env, c).nodes, at));
      }
      hide ApplyAction, SetLeaf;
    } else {
      SlotSelected(env, c.nodes, at, step);
      NextIsSlot(env, c, at, step);
      hide LiveTree, AtFrontier, Runnable, Next, SelectMove, AdvanceSlot, SetLeaf;
      SlotEffect(env, c, at, step);
      if LeafEffect(c.nodes, at, AdvanceSlot(env, c, at, step)) {
        PlaceStays(c.nodes, at, GetLeaf(Next(env, c).nodes, at));
      }
    }
  }

  lemma OneSlot(env: Env, c: Core, k: nat, at: Target, step: StepDef, at': Target, step': StepDef)
    requires Sound(env, c) && AtSlot(env, c, k, at, step) && AtSlot(env, c, k, at', step')
    ensures at == at' && step == step'
  {
    hide Runnable, SelectMove, LiveTree, LoopRunningAt;
  }

  /** The slot of a run, at this place. */
  ghost predicate AtSlotOf(env: Env, c: Core, k: nat, at: Target, step: StepDef, p: Place)
    requires Sound(env, c)
  {
    AtSlot(env, c, k, at, step) && PlaceOf(c.nodes, at) == p
  }

  /** What is decided there: to continue, or to abort. */
  ghost predicate ContinuedAt(env: Env, c: Core, k: nat, p: Place)
    requires Sound(env, c)
  {
    exists at, step :: AtSlotOf(env, c, k, at, step, p) && Continued(env, c, at, step)
  }

  ghost predicate AbortedAt(env: Env, c: Core, k: nat, p: Place)
    requires Sound(env, c)
  {
    exists at, step :: AtSlotOf(env, c, k, at, step, p) && Aborted(env, c, at, step)
  }

  /** A leaf not yet over becomes ignored exactly when it is continued, and failed exactly when it is aborted: under
      prompt_user by the answer alone when someone is there to ask. */
  lemma LeavesEndExactly(env: Env, c: Core, k: nat, p: Place)
    requires Resolvable(env.blueprint) && AtWork(env, c, k) && Sound(env, c) && Plausible(env, c)
    requires Obeyed(env, c.nodes)
    requires HasLeaf(c.nodes, p) && !Terminal(LeafOf(c.nodes, p).state)
    ensures HasLeaf(Next(env, c).nodes, p)
    ensures LeafOf(Next(env, c).nodes, p).state.Ignored? <==> ContinuedAt(env, c, k, p)
    ensures LeafOf(Next(env, c).nodes, p).state.Failed? <==> AbortedAt(env, c, k, p)
  {
    hide Next, Runnable, SelectMove, Plausible, AtWork, EndsAsToldBy, AtSlot, Continued, Aborted, Changed;
    var change := NextChanges(env, c);
    ChangedKeeps(c.nodes, change, p);
    ChangedLeaf(c.nodes, change, p);
    if at, step :| AtSlotOf(env, c, k, at, step, p) {
      SlotDecides(env, c, k, at, step, p);
    } else if change.LeafChange? {
      var step := FindSlot(env, c, k, change.at);
      assert !AtSlotOf(env, c, k, change.at, step, p);
    }
  }

  lemma SlotDecides(env: Env, c: Core, k: nat, at: Target, step: StepDef, p: Place)
    requires AtWork(env, c, k) && Sound(env, c) && Plausible(env, c) && Obeyed(env, c.nodes)
    requires AtSlotOf(env, c, k, at, step, p) && HasLeaf(c.nodes, p) && HasLeaf(Next(env, c).nodes, p)
    ensures LeafOf(Next(env, c).nodes, p).state.Ignored? <==> ContinuedAt(env, c, k, p)
    ensures LeafOf(Next(env, c).nodes, p).state.Failed? <==> AbortedAt(env, c, k, p)
  {
    hide Next, Runnable, SelectMove, Plausible, AtWork, EndsAsToldBy, Continued, Aborted, LiveTree, LoopRunningAt;
    FrontierDefined(env, c.nodes, k, at, step);
    SlotEnds(env, c, k, at, step);
    SlotKept(env, c, k, at, step);
    hide AtSlot;
    forall at', step' | AtSlotOf(env, c, k, at', step', p)
      ensures at' == at && step' == step
    {
      OneSlot(env, c, k, at, step, at', step');
    }
  }
}
