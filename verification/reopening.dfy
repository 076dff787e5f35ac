/** Where the crash theorem stops: between the commit that fails a body step and the one that fails its loop, the stored
    tree does not say that the run has failed. */
module Reopening {
  import opened StateModels
  import opened FailureRules
  import opened LoopPolicy
  import opened Projection
  import opened Transitions
  import opened Soundness
  import opened Solo
  import opened Interpreter
  import opened Refinement
  import opened PlanRefinement
  import opened Moves
  import opened Frontier
  import opened Guarantees
  import opened Restart
  import Clashing

  // ---- what a run never takes back ----

  lemma {:induction false} FinalKeepsAttempts(env: Env, c: Core, p: Place)
    requires Sound(env, c) && HasLeaf(c.nodes, p)
    ensures HasLeaf(Final(env, c).nodes, p)
    ensures |LeafOf(c.nodes, p).attempts| <= |LeafOf(Final(env, c).nodes, p).attempts|
    decreases |c.replies|, Rank(c.nodes), ControlRank(c.control)
  {
    hide Next, Runnable, HasLeaf, LeafOf, Rank, ControlRank, Changed, Allowed, Placed;
    if !c.control.Halted? {
      var change := NextChanges(env, c);
      ChangedKeeps(c.nodes, change, p);
      NextBelow(env, c);
      FinalKeepsAttempts(env, Next(env, c), p);
    }
  }

  lemma {:induction false} FinalKeepsVerdicts(env: Env, c: Core, pos: nat, i: nat)
    requires Sound(env, c) && Evaluated(c.nodes, pos, i)
    ensures Evaluated(Final(env, c).nodes, pos, i)
    decreases |c.replies|, Rank(c.nodes), ControlRank(c.control)
  {
    hide Next, Runnable, Evaluated, Rank, ControlRank, Changed, Allowed, Placed;
    if !c.control.Halted? {
      var change := NextChanges(env, c);
      ChangedKeepsVerdicts(c.nodes, change, pos, i);
      NextBelow(env, c);
      FinalKeepsVerdicts(env, Next(env, c), pos, i);
    }
  }

  // ---- the tree in between ----

  /** The coordinator is about to fail the loop whose body step j failed. */
  predicate Failing(env: Env, c: Core, k: nat, loop: LoopDef, j: nat) {
    && Sound(env, c) && c.control == FailingLoop(k) && BrokenTree(env, c.nodes, k) && env.blueprint[k] == LoopItem(loop)
    && j < |loop.body| && LoopFailingAt(env, loop, c.nodes[k], j)
  }

  lemma FailingAt(env: Env, c: Core, k: nat) returns (loop: LoopDef, j: nat)
    requires Resolvable(env.blueprint) && AtWork(env, c, k) && c.control.FailingLoop?
    ensures Failing(env, c, k, loop, j)
  {
    AtWorkSound(env, c, k);
    loop := env.blueprint[k].loop;
    j :| 0 <= j < |loop.body| && LoopFailingAt(env, loop, c.nodes[k], j);
  }

  lemma IdleBody(steps: seq<StepDef>, leaves: seq<Leaf>, j: nat, i: nat)
    requires BodyAt(steps, leaves, j, true) && i < |leaves|
    ensures !leaves[i].state.Running?
  {
    if i < j { assert DoneLeaf(steps[i], leaves[i]); }
    if i > j { assert leaves[i] == PendingLeaf(steps[i]); }
  }

  /** No attempt is open in it. */
  lemma FailingIsIdle(env: Env, c: Core, k: nat, loop: LoopDef, j: nat)
    requires Failing(env, c, k, loop, j)
    ensures !HasOpenAttempt(c.nodes)
  {
    forall p: Place | HasLeaf(c.nodes, p)
      ensures !LeafOf(c.nodes, p).state.Running?
    {
      hide BrokenTree, LoopHead, BodyAt, ClosedIteration;
      LeafRecorded(env, c.nodes, k, p);
      if Active(LeafOf(c.nodes, p)) { IdleBody(loop.body, Last(c.nodes[k].iterations).steps, j, p.index); }
    }
    hide BrokenTree, LoopHead, BodyAt, ClosedIteration, HasLeaf, LeafOf, NodeHasOpenAttempt;
    forall i | 0 <= i < |c.nodes|
      ensures !NodeHasOpenAttempt(c.nodes[i])
    {
      IdleNode(c.nodes, i);
    }
  }

  lemma IdleNode(nodes: seq<Node>, i: nat)
    requires i < |nodes| && forall p: Place :: HasLeaf(nodes, p) ==> !LeafOf(nodes, p).state.Running?
    ensures !NodeHasOpenAttempt(nodes[i])
  {
    if nodes[i].StepNode? {
      assert HasLeaf(nodes, StepPlace(i));
    } else {
      var its := nodes[i].iterations;
      forall a: nat, b: nat | a < |its| && b < |its[a].steps|
        ensures !OpenAttempt(its[a].steps[b])
      {
        assert HasLeaf(nodes, BodyPlace(i, a, b));
      }
    }
  }

  /** A process restarted there goes on with the next body step, or evaluates the conditions when there is none. */
  lemma BrokenFirstLive(env: Env, nodes: seq<Node>, k: nat)
    requires BrokenTree(env, nodes, k) && !Terminal(NodeStateOf(nodes[k]))
    ensures FirstLive(nodes) == k
  {
    hide DoneNode, BrokenNode;
    assert forall i :: 0 <= i < k ==> DoneNode(env, env.blueprint[i], nodes[i]);
    forall i | 0 <= i < k
      ensures Terminal(NodeStateOf(nodes[i]))
    {
      DoneIsTerminal(env, env.blueprint[i], nodes[i]);
    }
    FirstLiveIs(nodes, k);
  }

  lemma FailedBodySelects(env: Env, c: Core, k: nat, loop: LoopDef, j: nat)
    requires Resolvable(env.blueprint) && Failing(env, c, k, loop, j)
    ensures SelectMove(env.blueprint, c.nodes)
         == if j + 1 < |loop.body| then RunSlot(Body(k, j + 1), loop.body[j + 1])
            else LoopMove(k, loop.body, CompleteIteration)
    ensures j + 1 < |loop.body| ==>
              LeafAt(c.nodes, Body(k, j + 1)) && GetLeaf(c.nodes, Body(k, j + 1)) == PendingLeaf(loop.body[j + 1])
  {
    hide ApplyMove, DoneNode, LoopClosed;
    BrokenFirstLive(env, c.nodes, k);
    assert FindsOwn(env.blueprint, env.blueprint[k]);
    var leaves := Last(c.nodes[k].iterations).steps;
    if j + 1 < |loop.body| { assert leaves[j + 1] == PendingLeaf(loop.body[j + 1]); }
    FirstLiveLeafIs(leaves, |loop.body|, j + 1);
  }

  /** The process at work fails the loop and ends the run. */
  lemma LiveRunFails(env: Env, c: Core, k: nat, loop: LoopDef, j: nat, rs: seq<Reply>)
    requires Failing(env, c, k, loop, j)
    ensures Sound(env, Given(c, rs))
    ensures var r := Final(env, Given(c, rs)); var i := |c.nodes[k].iterations| - 1;
            && r.control == Halted(Returned(RunFailed)) && !Evaluated(r.nodes, k, i)
            && (j + 1 < |loop.body| ==>
                  HasLeaf(r.nodes, BodyPlace(k, i, j + 1)) && LeafOf(r.nodes, BodyPlace(k, i, j + 1)).attempts == [])
  {
    hide Next, Runnable, BrokenTree, Final, ClosedIteration;
    var a := Given(c, rs);
    NextFails(env, a, k);
    FinalUnfolds(env, a);
    var its := c.nodes[k].iterations;
    if j + 1 < |loop.body| { assert Last(its).steps[j + 1] == PendingLeaf(loop.body[j + 1]); }
    FinalHalted(env, Next(env, a));
  }

  lemma NextFails(env: Env, c: Core, k: nat)
    requires Sound(env, c) && c.control == FailingLoop(k)
    ensures LoopAt(c.nodes, k) && Next(env, c) == FinishLoop(c, k, true, false).core
  {
    hide ApplyMove, Runnable;
  }

  lemma FinalHalted(env: Env, c: Core)
    requires Sound(env, c) && c.control.Halted?
    ensures Final(env, c) == c
  {
    hide Runnable;
  }

  /** Every run restarted there attempts the next body step, or closes the iteration. */
  lemma RestartedRunGoesOn(env: Env, c: Core, k: nat, loop: LoopDef, j: nat, rs: seq<Reply>)
    requires Resolvable(env.blueprint) && Failing(env, c, k, loop, j)
    ensures Sound(env, Loaded(c.nodes, rs))
    ensures var r := Final(env, Loaded(c.nodes, rs)); var i := |c.nodes[k].iterations| - 1;
            if j + 1 < |loop.body| then
              HasLeaf(r.nodes, BodyPlace(k, i, j + 1)) && LeafOf(r.nodes, BodyPlace(k, i, j + 1)).attempts != []
            else Evaluated(r.nodes, k, i)
  {
    hide Runnable, Next, SelectMove, BrokenTree, Final, Recover;
    FailingIsIdle(env, c, k, loop, j);
    RecoverNothing(c.nodes);
    FailedBodySelects(env, c, k, loop, j);
    NextLoaded(env, c.nodes, rs);
    var b := Core(c.nodes, Ready, rs, [], false);
    FinalUnfolds(env, Loaded(c.nodes, rs));
    FinalUnfolds(env, b);
    var i := |c.nodes[k].iterations| - 1;
    if j + 1 < |loop.body| {
      NextBegins(env, b, k, j + 1, loop.body[j + 1]);
      FinalKeepsAttempts(env, Next(env, b), BodyPlace(k, i, j + 1));
    } else {
      NextClosesAt(env, b, k, loop.body);
      FinalKeepsVerdicts(env, Next(env, b), k, i);
    }
  }

  lemma NextBegins(env: Env, c: Core, k: nat, j: nat, step: StepDef)
    requires Sound(env, c) && c.control.Ready? && LeafAt(c.nodes, Body(k, j))
    requires SelectMove(env.blueprint, c.nodes) == RunSlot(Body(k, j), step)
    requires GetLeaf(c.nodes, Body(k, j)).state.Pending?
    ensures var p := BodyPlace(k, |c.nodes[k].iterations| - 1, j);
            HasLeaf(Next(env, c).nodes, p) && LeafOf(Next(env, c).nodes, p).attempts != []
  {
    var at := Body(k, j);
    NextBeginsAttempt(env, c, at, step);
    hide Next, SelectMove, Runnable;
    var leaf := GetLeaf(BeginAttempt(c, at, 1, None).core.nodes, at);
    PlaceStays(c.nodes, at, leaf);
  }

  lemma NextClosesAt(env: Env, c: Core, k: nat, body: seq<StepDef>)
    requires Sound(env, c) && c.control.Ready? && LoopAt(c.nodes, k)
    requires SelectMove(env.blueprint, c.nodes) == LoopMove(k, body, CompleteIteration)
    ensures Evaluated(Next(env, c).nodes, k, |c.nodes[k].iterations| - 1)
  {
    assert Next(env, c) == CloseIteration(env, c, k).core by { hide SelectMove, Runnable, CloseIteration; }
  }

  /** Whatever the world replies, the two processes end with different trees. */
  lemma FailedBodyRestarts(env: Env, c: Core, k: nat, rs: seq<Reply>, rs': seq<Reply>)
    requires Resolvable(env.blueprint) && AtWork(env, c, k) && c.control.FailingLoop?
    ensures Sound(env, Given(c, rs)) && Sound(env, Loaded(c.nodes, rs'))
    ensures Final(env, Loaded(c.nodes, rs')).nodes != Final(env, Given(c, rs)).nodes
  {
    hide Final, Failing, Runnable, AtWork;
    var loop, j := FailingAt(env, c, k);
    LiveRunFails(env, c, k, loop, j, rs);
    RestartedRunGoesOn(env, c, k, loop, j, rs');
    FailingBounds(env, c, k, loop, j);
  }

  lemma FailingBounds(env: Env, c: Core, k: nat, loop: LoopDef, j: nat)
    requires Failing(env, c, k, loop, j)
    ensures j < |loop.body| && k < |c.nodes| && c.nodes[k].LoopNode? && c.nodes[k].iterations != []
  {
  }

  /** The restarted process ends with the live one's tree, its open attempt answered as interrupted. */
  ghost predicate RestartsAlike(env: Env, c: Core)
    requires Sound(env, c)
  {
    forall rs: seq<Reply> ::
      && Sound(env, Loaded(c.nodes, rs)) && Sound(env, Given(c, Missed(env, c) + rs))
      && Final(env, Loaded(c.nodes, rs)).nodes == Final(env, Given(c, Missed(env, c) + rs)).nodes
  }

  /** Where a process may die: restarting it changes nothing exactly when it was not about to fail a loop. */
  lemma RestartsAlikeIff(env: Env, c: Core, k: nat)
    requires Resolvable(env.blueprint) && AtWork(env, c, k) && !c.control.Halted?
    ensures Sound(env, c) && (RestartsAlike(env, c) <==> !c.control.FailingLoop?)
  {
    hide Final, Runnable, AtWork, Missed, MissedCall, Next;
    AtWorkSound(env, c, k);
    if c.control.FailingLoop? {
      FailedBodyRestarts(env, c, k, Missed(env, c) + [], []);
    } else {
      forall rs: seq<Reply>
        ensures Sound(env, Loaded(c.nodes, rs)) && Sound(env, Given(c, Missed(env, c) + rs))
        ensures Final(env, Loaded(c.nodes, rs)).nodes == Final(env, Given(c, Missed(env, c) + rs)).nodes
      {
        CrashContinues(env, c, k, rs);
        var d := Given(c, Missed(env, c) + rs);
        FinalHaving(env, Having(d, []), c.executed);
        assert Having(Having(d, []), c.executed) == d;
      }
    }
  }

  // ---- such a point is reached ----

  /** A loop whose first body step fails under abort: its run stands between the two commits. */
  lemma FailingLoopReached(env: Env, loop: LoopDef, result: StepResult, rest: seq<Reply>) returns (c: Core)
    requires env.blueprint == [LoopItem(loop)] && loop.body != [] && Aborts(loop.body[0].onFailure)
    requires result.status.ResultFailed?
    ensures Leads(env, Loaded(PlanNodes(env.blueprint), [Reply(result, DecideAbort, AnswerAbort)] + rest), c)
    ensures c.control == FailingLoop(0)
  {
    hide Next, RunBody, Runnable, SelectMove, Outcomes, Leads;
    var replies := [Reply(result, DecideAbort, AnswerAbort)] + rest;
    var a := Loaded(PlanNodes(env.blueprint), replies);
    var a0 := a.(control := Ready);
    PlanRunnable(env);
    Clashing.PlanStarts(env, a, a0);
    StartsReady(env, a);
    LeadsOne(env, a);
    PlanLoopBegins(env, a0, [], env.blueprint);
    LeadsOne(env, a0);
    var a1 := Next(env, a0);
    BodyRefines(env, a1, 0, loop, [], 0, [], loop.body);
    var run := RunBody(env, loop.body, 0, 0, 1, HistoryAt(a1, 0, [], []), World(a1.replies, a1.executed));
    BodyAborts(env, loop.body, HistoryAt(a1, 0, [], []), World(a1.replies, a1.executed));
    c := AfterBody(a1, 0, loop, [], 0, [], run);
    LeadsTrans(env, a, a0, a1);
    LeadsTrans(env, a, a1, c);
  }

  lemma BodyAborts(env: Env, steps: seq<StepDef>, history: seq<Outcome>, w: World)
    requires steps != [] && Aborts(steps[0].onFailure)
    requires w.replies != [] && w.replies[0].Reply? && w.replies[0].result.status.ResultFailed?
    ensures RunBody(env, steps, 0, 0, 1, history, w).end == StopWith(Returned(RunFailed))
  {
    assert RunStep(env, steps[0], Spot(Body(0, 0), Some(1)), [], 1, history, w).end == StopWith(Returned(RunFailed));
  }
}
