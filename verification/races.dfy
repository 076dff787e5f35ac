/** Two histories in which a losing coordinator's _finish_run marks another one's finished run PAUSED. A coordinator
    waits at its prompt, a second one resumes the paused run, answers and ends it, and the first is then interrupted. */
module Races {
  import opened StateModels
  import opened FailureRules
  import opened Projection
  import opened Transitions
  import opened Rows
  import opened Solo
  import opened Refinement
  import opened PlanRefinement
  import opened Frontier
  import opened Loader
  import opened Fleet

  /** A fresh run whose first step someone is asked about when it fails. */
  predicate Prompts(env: Env, step: StepDef) {
    && Resolvable(env.blueprint) && env.blueprint != [] && env.blueprint[0] == StepItem(step)
    && Asks(step.onFailure) && env.Interactive()
  }

  /** The tree with nothing but its first leaf touched. */
  function Tree(env: Env, leaf: Leaf): (r: seq<Node>)
    requires env.blueprint != []
    ensures |r| == |env.blueprint| && r[0] == StepNode(leaf)
    ensures forall i :: 0 < i < |r| ==> r[i] == PlanNode(env.blueprint[i])
  {
    PlanNodes(env.blueprint)[0 := StepNode(leaf)]
  }

  function Waiting(step: StepDef, r: StepResult): Leaf {
    Leaf(step.id, step.name, Paused, [Attempt(r.attempts, Some(r))])
  }

  function Ended(step: StepDef, r: StepResult, answer: StepDecision): Leaf
    requires !answer.DecideRetry?
  {
    if answer.DecideContinue? then Leaf(step.id, step.name, Ignored, [Attempt(r.attempts, Some(MarkContinued(r)))])
    else Leaf(step.id, step.name, Failed, [Attempt(r.attempts, Some(r))])
  }

  // ---- what the coordinators do ----

  lemma TreeRuns(env: Env, step: StepDef, leaf: Leaf)
    requires Prompts(env, step) && RunnableLeaf(leaf) && leaf.id == step.id
    ensures Runnable(env.blueprint, Tree(env, leaf))
    ensures !Terminal(leaf.state) ==> SelectMove(env.blueprint, Tree(env, leaf)) == RunSlot(Top(0), step)
    ensures !OpenAttempt(leaf) ==> !HasOpenAttempt(Tree(env, leaf))
  {
    PlanRunnable(env);
    var nodes := Tree(env, leaf);
    forall i | 0 <= i < |nodes|
      ensures RunnableNode(env.blueprint, nodes[i]) && (!OpenAttempt(leaf) ==> !NodeHasOpenAttempt(nodes[i]))
    {
      if i > 0 { assert PlanNodes(env.blueprint)[i] == nodes[i]; }
    }
    if !Terminal(leaf.state) { FirstLiveIs(nodes, 0); }
  }

  lemma Loads(env: Env, step: StepDef, leaf: Leaf, rs: seq<Reply>)
    requires Prompts(env, step) && RunnableLeaf(leaf) && leaf.id == step.id && !OpenAttempt(leaf)
    ensures Sound(env, Loaded(Tree(env, leaf), rs))
    ensures var e := Propose(env, Loaded(Tree(env, leaf), rs));
            !e.commit && e.core == Core(Tree(env, leaf), Ready, rs, [], false)
  {
    TreeRuns(env, step, leaf);
    RecoverNothing(Tree(env, leaf));
    hide ApplyMove, Runnable, Recover;
  }

  lemma Begins(env: Env, step: StepDef, rs: seq<Reply>)
    requires Prompts(env, step)
    ensures var c := Core(Tree(env, PendingLeaf(step)), Ready, rs, [], false);
            && Sound(env, c)
            && var e := Propose(env, c);
               e.commit && e.status == None && e.core == c.(nodes := Tree(env, FirstAttempt(step)))
  {
    TreeRuns(env, step, PendingLeaf(step));
    hide Runnable, SelectMove;
    assert [] + [Attempt(1, None)] == [Attempt(1, None)];
  }

  lemma Fails(env: Env, step: StepDef, r: StepResult, answer: StepDecision, rs: seq<Reply>)
    requires Prompts(env, step) && r.status.ResultFailed?
    ensures var c := Core(Tree(env, FirstAttempt(step)), Ready, [Reply(r, answer, AnswerAbort)] + rs, [], false);
            && Sound(env, c)
            && var e := Propose(env, c);
               && e.commit && e.status == Some(RunPaused) && e.core.nodes == Tree(env, Waiting(step, r))
               && e.core.control == Prompting(Top(0)) && e.core.replies == rs
  {
    hide Runnable, SelectMove, Outcomes, Numbered, Settle, ExecutionOf;
    TreeRuns(env, step, FirstAttempt(step));
    var c := Core(Tree(env, FirstAttempt(step)), Ready, [Reply(r, answer, AnswerAbort)] + rs, [], false);
    assert c.replies[1..] == rs;
    assert Propose(env, c) == RunAttempt(env, c, Top(0), step);
    var c2 := c.(executed := c.executed + [ExecutionOf(c.nodes, Top(0), step)], replies := rs);
    assert RunAttempt(env, c, Top(0), step) == Settle(env, c2, Top(0), step, r);
    Pauses(env, step, r, c2);
  }

  lemma Pauses(env: Env, step: StepDef, r: StepResult, c: Core)
    requires Prompts(env, step) && r.status.ResultFailed? && c.nodes == Tree(env, FirstAttempt(step))
    ensures var e := Settle(env, c, Top(0), step, r);
            && e.commit && e.status == Some(RunPaused) && e.core.nodes == Tree(env, Waiting(step, r))
            && e.core.control == Prompting(Top(0)) && e.core.replies == c.replies
  {
    hide Lookup, Tree, SetLeaf;
    var a := Attempt(r.attempts, Some(r));
    assert WithLast([Attempt(1, None)], a) == [a];
    var recorded := Leaf(step.id, step.name, Running, [a]);
    TreeSet(env, FirstAttempt(step), recorded);
    TreeSet(env, recorded, Waiting(step, r));
  }

  lemma TreeSet(env: Env, a: Leaf, b: Leaf)
    requires env.blueprint != []
    ensures LeafAt(Tree(env, a), Top(0)) && GetLeaf(Tree(env, a), Top(0)) == a
    ensures SetLeaf(Tree(env, a), Top(0), b) == Tree(env, b)
  {
  }

  lemma Reasks(env: Env, step: StepDef, r: StepResult, rs: seq<Reply>)
    requires Prompts(env, step)
    ensures var c := Core(Tree(env, Waiting(step, r)), Ready, rs, [], false);
            && Sound(env, c)
            && var e := Propose(env, c);
               e.commit && e.status == Some(RunPaused) && e.core == c.(control := Prompting(Top(0)))
  {
    TreeRuns(env, step, Waiting(step, r));
    hide Runnable, SelectMove;
    var c := Core(Tree(env, Waiting(step, r)), Ready, rs, [], false);
    assert Propose(env, c) == Gate(env, c, Top(0), step);
  }

  lemma PromptFits(env: Env, step: StepDef, r: StepResult, c: Core)
    requires Prompts(env, step) && c.nodes == Tree(env, Waiting(step, r)) && c.control == Prompting(Top(0))
    ensures Sound(env, c)
  {
    TreeRuns(env, step, Waiting(step, r));
  }

  lemma Answers(env: Env, step: StepDef, r: StepResult, answer: StepDecision, c: Core)
    requires Prompts(env, step) && c.nodes == Tree(env, Waiting(step, r)) && c.control == Prompting(Top(0))
    requires c.replies == [Reply(r, answer, AnswerAbort)] && !answer.DecideRetry?
    ensures Sound(env, c)
    ensures var e := Propose(env, c);
            && e.commit && e.core.nodes == Tree(env, Ended(step, r, answer)) && e.core.replies == []
            && e.core.control == if answer.DecideContinue? then Ready else Halted(Returned(RunFailed))
  {
    PromptFits(env, step, r, c);
    hide Runnable, ApplyMove;
    var a := Attempt(r.attempts, Some(r));
    assert WithLast([a], Attempt(r.attempts, Some(MarkContinued(r)))) == [Attempt(r.attempts, Some(MarkContinued(r)))];
  }

  lemma Interrupted(env: Env, step: StepDef, r: StepResult, c: Core)
    requires Prompts(env, step) && c.nodes == Tree(env, Waiting(step, r)) && c.control == Prompting(Top(0))
    requires c.replies == [Interrupt]
    ensures Sound(env, c) && !Propose(env, c).commit && Propose(env, c).core.control == Halted(Returned(RunPaused))
  {
    PromptFits(env, step, r, c);
    hide Runnable, ApplyMove;
  }

  // ---- building a history ----

  lemma {:induction false} Happens(f: Fleet, events: seq<Event>, e: Event)
    requires CanHappen(f, events) && Enabled(AfterAll(f, events), e)
    ensures CanHappen(f, events + [e]) && AfterAll(f, events + [e]) == After(AfterAll(f, events), e)
    decreases |events|
  {
    hide After, Enabled;
    if events == [] {
      assert events + [e] == [e] && [e][1..] == [];
      assert CanHappen(After(f, e), []);
    } else {
      Happens(After(f, events[0]), events[1..], e);
      assert (events + [e])[1..] == events[1..] + [e];
    }
  }

  /** Worker i can take its next step. */
  ghost predicate Waits(f: Fleet, i: nat, env: Env, c: Core, revision: nat) {
    i < |f.workers| && f.workers[i] == Worker(env, c, revision, None) && Sound(env, c) && !c.control.Halted?
  }

  /** It works without committing. */
  lemma Works(f0: Fleet, events: seq<Event>, i: nat, env: Env, c: Core, revision: nat) returns (events': seq<Event>)
    requires CanHappen(f0, events) && Waits(AfterAll(f0, events), i, env, c, revision) && !Propose(env, c).commit
    ensures CanHappen(f0, events')
    ensures var f, g := AfterAll(f0, events), AfterAll(f0, events');
            g.row == f.row && g.workers == f.workers[i := Worker(env, Propose(env, c).core, revision, None)]
  {
    hide Propose, Runs, Sound;
    Happens(f0, events, Work(i));
    events' := events + [Work(i)];
  }

  /** It works and its commit is accepted. */
  lemma Commits(f0: Fleet, events: seq<Event>, i: nat, env: Env, c: Core, revision: nat) returns (events': seq<Event>)
    requires CanHappen(f0, events) && Waits(AfterAll(f0, events), i, env, c, revision) && Propose(env, c).commit
    requires Accepts(AfterAll(f0, events).row, revision)
    ensures CanHappen(f0, events')
    ensures var f, g, e := AfterAll(f0, events), AfterAll(f0, events'), Propose(env, c);
            && g.row == Written(f.row, revision, e.core.nodes, e.status)
            && g.workers == f.workers[i := Worker(env, e.core, revision + 1, None)]
  {
    hide Propose, Runs, Opens, Sound;
    Happens(f0, events, Work(i));
    var events1 := events + [Work(i)];
    Happens(f0, events1, Commit(i));
    events' := events1 + [Commit(i)];
  }

  lemma Joins(f0: Fleet, events: seq<Event>, env: Env, rs: seq<Reply>)
    requires CanHappen(f0, events) && AfterAll(f0, events).row.Some?
    requires Runnable(env.blueprint, AfterAll(f0, events).row.value.nodes)
    ensures CanHappen(f0, events + [Load(env, rs)])
    ensures var f, g := AfterAll(f0, events), AfterAll(f0, events + [Load(env, rs)]);
            g.row == f.row
            && g.workers == f.workers + [Worker(env, Loaded(f.row.value.nodes, rs), f.row.value.revision, None)]
  {
    hide Runnable;
    Happens(f0, events, Load(env, rs));
  }

  /** A row nobody has loaded since it was planned. */
  function Planned(env: Env): Fleet {
    Unloaded(Row(0, PlanNodes(env.blueprint), RunRunning))
  }

  predicate Stored(f: Fleet, revision: nat, nodes: seq<Node>, status: RunStatus) {
    f.row == Some(Row(revision, nodes, status))
  }

  /** The first coordinator at its prompt, which will be interrupted. */
  ghost predicate AtItsPrompt(f: Fleet, env: Env, step: StepDef, r: StepResult) {
    && f.workers != [] && f.workers[0].env == env && f.workers[0].proposal.None? && env.blueprint != []
    && f.workers[0].core.nodes == Tree(env, Waiting(step, r)) && f.workers[0].core.control == Prompting(Top(0))
    && f.workers[0].core.replies == [Interrupt]
  }

  /** The first coordinator runs the step, which fails, and waits at its prompt. */
  lemma Opening(env: Env, step: StepDef, r: StepResult) returns (events: seq<Event>)
    requires Prompts(env, step) && r.status.ResultFailed?
    ensures CanHappen(Planned(env), events)
    ensures var f := AfterAll(Planned(env), events);
            && Stored(f, 2, Tree(env, Waiting(step, r)), RunPaused) && |f.workers| == 1 && AtItsPrompt(f, env, step, r)
  {
    hide Propose, Runnable, Sound, After;
    var f0 := Planned(env);
    var rs := [Reply(r, DecideAbort, AnswerAbort)] + [Interrupt];
    assert PlanNodes(env.blueprint) == Tree(env, PendingLeaf(step));
    TreeRuns(env, step, PendingLeaf(step));
    Loads(env, step, PendingLeaf(step), rs);
    Begins(env, step, rs);
    Fails(env, step, r, DecideAbort, [Interrupt]);
    assert CanHappen(f0, []) && AfterAll(f0, []) == f0;
    Joins(f0, [], env, rs);
    events := [] + [Load(env, rs)];
    events := Works(f0, events, 0, env, Loaded(Tree(env, PendingLeaf(step)), rs), 0);
    events := Commits(f0, events, 0, env, Core(Tree(env, PendingLeaf(step)), Ready, rs, [], false), 0);
    events := Commits(f0, events, 0, env, Core(Tree(env, FirstAttempt(step)), Ready, rs, [], false), 1);
  }

  /** A second one resumes the paused run, is asked the same, and answers. */
  lemma Takeover(env: Env, step: StepDef, r: StepResult, answer: StepDecision, events: seq<Event>)
    returns (events': seq<Event>)
    requires Prompts(env, step) && r.status.ResultFailed? && !answer.DecideRetry?
    requires CanHappen(Planned(env), events)
    requires var f := AfterAll(Planned(env), events);
             && Stored(f, 2, Tree(env, Waiting(step, r)), RunPaused) && |f.workers| == 1 && AtItsPrompt(f, env, step, r)
    ensures CanHappen(Planned(env), events')
    ensures var f := AfterAll(Planned(env), events');
            && f.row.Some? && f.row.value.nodes == Tree(env, Ended(step, r, answer))
            && |f.workers| == 2 && AtItsPrompt(f, env, step, r)
            && f.workers[1].env == env && f.workers[1].proposal.None?
            && f.workers[1].core.nodes == Tree(env, Ended(step, r, answer)) && f.workers[1].core.replies == []
            && f.workers[1].core.control == if answer.DecideContinue? then Ready else Halted(Returned(RunFailed))
  {
    hide Propose, Runnable, Sound, SelectMove, FindsOwn;
    var f0 := Planned(env);
    var rs := [Reply(r, answer, AnswerAbort)];
    var leaf := Waiting(step, r);
    TreeRuns(env, step, leaf);
    Loads(env, step, leaf, rs);
    Reasks(env, step, r, rs);
    Happens(f0, events, SetStatus(RunRunning));
    events' := events + [SetStatus(RunRunning)];
    hide After;
    Joins(f0, events', env, rs);
    events' := events' + [Load(env, rs)];
    events' := Works(f0, events', 1, env, Loaded(Tree(env, leaf), rs), 2);
    var c := Core(Tree(env, leaf), Ready, rs, [], false);
    events' := Commits(f0, events', 1, env, c, 2);
    var c1 := c.(control := Prompting(Top(0)));
    Answers(env, step, r, answer, c1);
    events' := Commits(f0, events', 1, env, c1, 3);
  }

  /** The first coordinator is interrupted, returns PAUSED, and its _finish_run stores that. */
  lemma LastWord(env: Env, step: StepDef, r: StepResult, events: seq<Event>) returns (events': seq<Event>)
    requires Prompts(env, step) && CanHappen(Planned(env), events)
    requires var f := AfterAll(Planned(env), events); f.row.Some? && AtItsPrompt(f, env, step, r)
    ensures CanHappen(Planned(env), events')
    ensures var f, g := AfterAll(Planned(env), events), AfterAll(Planned(env), events');
            && g.row.Some? && g.row.value.nodes == f.row.value.nodes && g.row.value.status == RunPaused
            && |g.workers| == |f.workers| && g.workers == f.workers[0 := g.workers[0]]
            && g.workers[0].core.control == Halted(Returned(RunPaused))
  {
    hide Propose, Runnable, Sound;
    var f0 := Planned(env);
    var w := AfterAll(f0, events).workers[0];
    Interrupted(env, step, r, w.core);
    events' := Works(f0, events, 0, env, w.core, w.revision);
    Happens(f0, events', Finish(RunPaused));
    events' := events' + [Finish(RunPaused)];
  }

  /** The second coordinator completes the run; the first one's last word leaves a PAUSED row over a tree with nothing
      left to run, and a resume is refused. */
  lemma PausedOverCompleted(env: Env, step: StepDef, r: StepResult) returns (events: seq<Event>)
    requires Prompts(env, step) && env.blueprint == [StepItem(step)] && r.status.ResultFailed?
    ensures CanHappen(Planned(env), events) && |AfterAll(Planned(env), events).workers| == 2
    ensures var f := AfterAll(Planned(env), events);
            && f.workers[1].core.control == Halted(Returned(RunCompleted)) && f.row.Some?
            && f.row.value.status == RunPaused && AllTerminated(f.row.value.nodes) && !Accepted(env, f.row.value.nodes)
  {
    hide Propose, Runnable, Sound, AllPausedRecorded, StructureErrors;
    var f0 := Planned(env);
    events := Opening(env, step, r);
    events := Takeover(env, step, r, DecideContinue, events);
    var w := AfterAll(f0, events).workers[1];
    Completes(env, step, r, w.core);
    events := Works(f0, events, 1, env, w.core, w.revision);
    Happens(f0, events, Finish(RunCompleted));
    events := events + [Finish(RunCompleted)];
    hide After;
    events := LastWord(env, step, r, events);
  }

  lemma Completes(env: Env, step: StepDef, r: StepResult, c: Core)
    requires Prompts(env, step) && env.blueprint == [StepItem(step)] && c.control.Ready?
    requires c.nodes == Tree(env, Ended(step, r, DecideContinue))
    ensures Sound(env, c) && !Propose(env, c).commit && Propose(env, c).core.control == Halted(Returned(RunCompleted))
  {
    TreeRuns(env, step, Ended(step, r, DecideContinue));
    FirstLiveIs(c.nodes, 1);
    hide Runnable;
  }

  /** The second coordinator aborts the run; the first one's last word leaves a PAUSED row over a failed tree that both
      checks of a resume accept, and that would be run on after the failed step. */
  lemma PausedOverFailed(env: Env, step: StepDef, r: StepResult) returns (events: seq<Event>)
    requires Prompts(env, step) && |env.blueprint| >= 2 && r.status.ResultFailed?
    ensures CanHappen(Planned(env), events) && |AfterAll(Planned(env), events).workers| == 2
    ensures var f := AfterAll(Planned(env), events);
            && f.workers[1].core.control == Halted(Returned(RunFailed)) && f.row.Some?
            && f.row.value.status == RunPaused && BrokenTree(env, f.row.value.nodes, 0)
            && Accepted(env, f.row.value.nodes)
            && FirstLive(f.row.value.nodes) == 1
  {
    hide Propose, Runnable, Sound, Accepted, BrokenTree;
    var f0 := Planned(env);
    events := Opening(env, step, r);
    events := Takeover(env, step, r, DecideAbort, events);
    Happens(f0, events, Finish(RunFailed));
    events := events + [Finish(RunFailed)];
    hide After;
    events := LastWord(env, step, r, events);
    FailedIsBroken(env, step, r);
    FailedTreesPassToo(env, Tree(env, Ended(step, r, DecideAbort)), 0);
  }

  lemma FailedIsBroken(env: Env, step: StepDef, r: StepResult)
    requires Prompts(env, step)
    ensures BrokenTree(env, Tree(env, Ended(step, r, DecideAbort)), 0)
  {
  }
}
