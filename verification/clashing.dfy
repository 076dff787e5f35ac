/** Which blueprints the coordinator runs as written: exactly those whose definitions each find their own when looked
    up by id. */
module Clashing {
  import opened StateModels
  import opened FailureRules
  import opened Projection
  import opened Transitions
  import opened Solo
  import opened Interpreter
  import opened Refinement
  import opened PlanRefinement
  import opened Restart

  /** The run of this blueprint is the interpreter's, for all replies and conditions, with or without someone to ask. */
  ghost predicate RunsAsWritten(defs: seq<Definition>) {
    && Runnable(defs, PlanNodes(defs))
    && forall env: Env, replies: seq<Reply> :: env.blueprint == defs ==>
         Final(env, Loaded(PlanNodes(defs), replies)) == Finished(RunPlan(env, defs, 0, [], World(replies, [])))
  }

  // ---- a world in which every step succeeds and every condition holds ----

  const SUCCESS: Reply := Reply(StepResult("", ResultCompleted, 0, "", 1, Silent), DecideAbort, AnswerAbort)

  function Successes(n: nat): (r: seq<Reply>)
    ensures |r| == n && forall i :: 0 <= i < n ==> r[i] == SUCCESS
  {
    seq(n, _ => SUCCESS)
  }

  function Willing(defs: seq<Definition>): Env {
    Env(defs, false, true, (_, _, _) => true)
  }

  /** The calls this definition makes there. */
  function CallsOf(d: Definition): nat {
    match d
    case StepItem(_) => 1
    case LoopItem(loop) => |loop.body|
  }

  function CallsOfAll(defs: seq<Definition>): nat {
    if defs == [] then 0 else CallsOf(defs[0]) + CallsOfAll(defs[1..])
  }

  lemma StepSucceeds(env: Env, step: StepDef, spot: Spot, history: seq<Outcome>, w: World, n: nat)
    requires n > 0 && w.replies == Successes(n)
    ensures var run := RunStep(env, step, spot, [], 1, history, w);
            && run.end.Onward? && run.world.replies == Successes(n - 1) && run.leaf.state.Completed?
            && run.world.executed == w.executed + [Execution(step, spot, 1, Numbered(history))]
  {
    assert w.replies[1..] == Successes(n - 1);
  }

  lemma {:induction false} BodySucceeds(env: Env, steps: seq<StepDef>, pos: nat, index: nat, number: nat,
                                        history: seq<Outcome>, w: World, n: nat)
    requires n >= |steps| && w.replies == Successes(n)
    ensures var run := RunBody(env, steps, pos, index, number, history, w);
            run.end.Onward? && run.world.replies == Successes(n - |steps|)
    decreases |steps|
  {
    hide RunStep;
    if steps != [] {
      StepSucceeds(env, steps[0], Spot(Body(pos, index), Some(number)), history, w, n);
      var first := RunStep(env, steps[0], Spot(Body(pos, index), Some(number)), [], 1, history, w);
      BodySucceeds(env, steps[1..], pos, index + 1, number, history + LeafOutcomes(first.leaf), first.world, n - 1);
    }
  }

  lemma DefinitionSucceeds(env: Env, d: Definition, pos: nat, history: seq<Outcome>, w: World, n: nat)
    requires env == Willing(env.blueprint) && n >= CallsOf(d) && w.replies == Successes(n)
    ensures var run := RunDefinition(env, d, pos, history, w);
            run.1.Onward? && run.2.replies == Successes(n - CallsOf(d)) && Settled(NodeStateOf(run.0))
  {
    match d
    case StepItem(step) => StepSucceeds(env, step, Spot(Top(pos), None), history, w, n);
    case LoopItem(loop) => BodySucceeds(env, loop.body, pos, 0, 1, history, w, n);
  }

  /** Both the coordinator and the interpreter get through the first n definitions, when these find their own. */
  lemma {:induction false} PrefixRuns(env: Env, c: Core, done: seq<Node>, rest: seq<Definition>, n: nat, calls: nat)
    returns (c1: Core, done1: seq<Node>)
    requires AtPlan(env, c, done, rest) && env == Willing(env.blueprint) && n <= |rest|
    requires forall i :: 0 <= i < n ==> FindsOwn(env.blueprint, rest[i])
    requires c.replies == Successes(CallsOfAll(rest[..n]) + calls)
    ensures Leads(env, c, c1) && AtPlan(env, c1, done1, rest[n..]) && c1.replies == Successes(calls)
    ensures AfterPlan(c1, done1, RunPlan(env, rest[n..], |done1|, Outcomes(done1), World(c1.replies, c1.executed)))
         == AfterPlan(c, done, RunPlan(env, rest, |done|, Outcomes(done), World(c.replies, c.executed)))
    decreases n
  {
    hide Next, RunDefinition, Sound, NodeOutcomes, Outcomes, Leads, RunPlan, AfterPlan, AtPlan, FindsOwn;
    AtPlanSound(env, c, done, rest);
    LeadsOne(env, c);
    if n == 0 {
      assert rest[0..] == rest;
      return c, done;
    }
    var w := World(c.replies, c.executed);
    var run := RunDefinition(env, rest[0], |done|, Outcomes(done), w);
    assert rest[..n][0] == rest[0] && rest[..n][1..] == rest[1..][..n - 1] && rest[1..][n - 1..] == rest[n..];
    DefinitionSucceeds(env, rest[0], |done|, Outcomes(done), w, CallsOfAll(rest[..n]) + calls);
    var c2 := AfterDefinition(c, |done|, run);
    DefinitionRefines(env, c, done, rest);
    LeadsFinal(env, c, c2);
    PlanContinues(env, c, done, rest);
    c1, done1 := PrefixRuns(env, c2, done + [run.0], rest[1..], n - 1, calls);
    LeadsTrans(env, c, c2, c1);
  }

  // ---- where the two part ----

  /** With no replies left the interpreter dies in the step's first call. */
  lemma StepDies(env: Env, step: StepDef, spot: Spot, history: seq<Outcome>, w: World)
    requires w.replies == []
    ensures var run := RunStep(env, step, spot, [], 1, history, w);
            && run.end == StopWith(Killed)
            && run.world.executed == w.executed + [Execution(step, spot, 1, Numbered(history))]
  {
  }

  /** The coordinator begins the slot selected and dies in its call: of the step it found. */
  lemma SlotDies(env: Env, c: Core, at: Target, step: StepDef, own: StepDef)
    requires Sound(env, c) && c.control.Ready? && c.replies == [] && LeafAt(c.nodes, at)
    requires SelectMove(env.blueprint, c.nodes) == RunSlot(at, step) && GetLeaf(c.nodes, at) == PendingLeaf(own)
    ensures var r := Final(env, c);
            && r.control == Halted(Killed) && |r.executed| == |c.executed| + 1 && Last(r.executed).step == step
  {
    var leaf := Leaf(own.id, own.name, Running, [Attempt(1, None)]);
    SelectStable(env.blueprint, c.nodes, at, step, leaf);
    var c1 := c.(nodes := SetLeaf(c.nodes, at, leaf));
    NextBeginsAttempt(env, c, at, step);
    hide SelectMove, Runnable, SetLeaf, Outcomes, Numbered, Next;
    assert [] + [Attempt(1, None)] == [Attempt(1, None)];
    assert Next(env, c) == c1;
    NextCalls(env, c1, at, step);
    FinalUnfolds(env, c);
    FinalUnfolds(env, c1);
  }

  lemma MissingStops(env: Env, c: Core)
    requires Sound(env, c) && c.control.Ready? && SelectMove(env.blueprint, c.nodes).NoDefinition?
    ensures Final(env, c) == c.(control := Halted(Returned(RunFailed)), hasError := true)
  {
    assert Next(env, c) == c.(control := Halted(Returned(RunFailed)), hasError := true) by {
      hide SelectMove, Runnable;
    }
    hide Next;
    FinalUnfolds(env, c);
  }

  lemma PlanSelects(env: Env, c: Core, done: seq<Node>, rest: seq<Definition>)
    requires AtPlan(env, c, done, rest) && rest != []
    ensures c.nodes[|done|] == PlanNode(rest[0]) && FirstLive(c.nodes) == |done| < |c.nodes|
    ensures NodeId(c.nodes[|done|]) == DefinitionId(rest[0]) && rest[0] == env.blueprint[|done|]
  {
    assert c.nodes[|done|] == PlanNode(rest[0]);
    FirstLiveIs(c.nodes, |done|);
  }

  lemma {:induction false} LookupFinds(defs: seq<Definition>, i: nat)
    requires i < |defs|
    ensures Lookup(defs, DefinitionId(defs[i])).Some?
  {
    if i > 0 { LookupFinds(defs[1..], i - 1); }
  }

  /** The interpreter's run of the plan when its first definition stops it. */
  lemma PlanDies(env: Env, rest: seq<Definition>, pos: nat, history: seq<Outcome>, w: World)
    requires rest != [] && RunDefinition(env, rest[0], pos, history, w).1 == StopWith(Killed)
    ensures RunPlan(env, rest, pos, history, w).ending == Killed
    ensures RunPlan(env, rest, pos, history, w).world == RunDefinition(env, rest[0], pos, history, w).2
  {
  }

  /** A step that finds another step. */
  lemma StepsPart(env: Env, c: Core, done: seq<Node>, rest: seq<Definition>)
    requires AtPlan(env, c, done, rest) && rest != [] && rest[0].StepItem? && c.replies == []
    requires Lookup(env.blueprint, rest[0].step.id).Some? && Lookup(env.blueprint, rest[0].step.id).value.StepItem?
    requires Lookup(env.blueprint, rest[0].step.id).value != rest[0]
    ensures Final(env, c) != AfterPlan(c, done,
                                       RunPlan(env, rest, |done|, Outcomes(done), World(c.replies, c.executed)))
  {
    PlanSelects(env, c, done, rest);
    var found := Lookup(env.blueprint, rest[0].step.id).value.step;
    assert SelectMove(env.blueprint, c.nodes) == RunSlot(Top(|done|), found);
    hide SelectMove, Outcomes, Numbered, Runnable;
    SlotDies(env, c, Top(|done|), found, rest[0].step);
    StepDies(env, rest[0].step, Spot(Top(|done|), None), Outcomes(done), World([], c.executed));
    PlanDies(env, rest, |done|, Outcomes(done), World([], c.executed));
  }

  /** A step that finds a loop, or a loop that finds a step. */
  lemma KindsPart(env: Env, c: Core, done: seq<Node>, rest: seq<Definition>)
    requires AtPlan(env, c, done, rest) && rest != [] && c.replies == [] && env == Willing(env.blueprint)
    requires Lookup(env.blueprint, DefinitionId(rest[0])).Some?
    requires Lookup(env.blueprint, DefinitionId(rest[0])).value.StepItem? != rest[0].StepItem?
    ensures Final(env, c) != AfterPlan(c, done,
                                       RunPlan(env, rest, |done|, Outcomes(done), World(c.replies, c.executed)))
  {
    PlanSelects(env, c, done, rest);
    assert SelectMove(env.blueprint, c.nodes).NoDefinition?;
    hide SelectMove, Outcomes, Numbered, Runnable;
    MissingStops(env, c);
    var w := World([], c.executed);
    match rest[0]
    case StepItem(step) =>
      StepDies(env, step, Spot(Top(|done|), None), Outcomes(done), w);
      PlanDies(env, rest, |done|, Outcomes(done), w);
    case LoopItem(loop) =>
      if loop.body != [] {
        StepDies(env, loop.body[0], Spot(Body(|done|, 0), Some(1)), Outcomes(done), w);
        assert RunBody(env, loop.body, |done|, 0, 1, Outcomes(done), w).end == StopWith(Killed);
        PlanDies(env, rest, |done|, Outcomes(done), w);
      } else {
        assert w.replies == Successes(0);
        DefinitionSucceeds(env, rest[0], |done|, Outcomes(done), w, 0);
        var run := RunPlan(env, rest, |done|, Outcomes(done), w);
        assert (done + run.nodes)[|done|] == RunDefinition(env, rest[0], |done|, Outcomes(done), w).0;
      }
  }

  // ---- loops that find another body ----

  /** How many steps two bodies have in common from the start. */
  function Common(a: seq<StepDef>, b: seq<StepDef>): (m: nat)
    ensures m <= |a| && m <= |b| && a[..m] == b[..m]
    ensures m < |a| && m < |b| ==> a[m] != b[m]
  {
    if a == [] || b == [] || a[0] != b[0] then 0
    else
      var m := Common(a[1..], b[1..]);
      assert a[..m + 1] == [a[0]] + a[1..][..m] && b[..m + 1] == [b[0]] + b[1..][..m];
      1 + m
  }

  /** The coordinator walks through the common steps; where the bodies part it dies in a call of the step it found, and
      the interpreter in one of the loop's own. */
  lemma {:induction false} BodiesPart(env: Env, c: Core, pos: nat, loop: LoopDef, done: seq<Leaf>, rest: seq<StepDef>,
                                      m: nat)
    requires InBody(env, c, pos, loop, [], 0, done, rest) && |done| <= m < |loop.body|
    requires c.replies == Successes(m - |done|)
    requires forall i :: |done| <= i < m ==> StepFound(env.blueprint, loop, i, loop.body[i])
    requires !StepFound(env.blueprint, loop, m, loop.body[m])
    ensures var r := Final(env, c);
            var run := RunBody(env, rest, pos, |done|, 1, HistoryAt(c, pos, [], done), World(c.replies, c.executed));
            && run.end == StopWith(Killed) && r.executed != run.world.executed
    decreases m - |done|
  {
    hide HistoryAt, Final, StepFound, RunStep;
    if |done| == m {
      BodyDies(env, c, pos, loop, done, rest);
    } else {
      var first, c2 := BodyGoesOn(env, c, pos, loop, done, rest, m);
      hide InBody;
      BodiesPart(env, c2, pos, loop, done + [first.leaf], rest[1..], m);
    }
  }

  lemma BodyDies(env: Env, c: Core, pos: nat, loop: LoopDef, done: seq<Leaf>, rest: seq<StepDef>)
    requires InBody(env, c, pos, loop, [], 0, done, rest) && rest != [] && c.replies == []
    requires !StepFound(env.blueprint, loop, |done|, rest[0])
    ensures var r := Final(env, c);
            var run := RunBody(env, rest, pos, |done|, 1, HistoryAt(c, pos, [], done), World(c.replies, c.executed));
            && run.end == StopWith(Killed) && r.executed != run.world.executed
  {
    hide RunStep, Next, Outcomes, Runnable, SetLeaf;
    StepDies(env, rest[0], Spot(Body(pos, |done|), Some(1)), HistoryAt(c, pos, [], done), World([], c.executed));
    InBodySelects(env, c, pos, loop, done, rest);
    SlotDies(env, c, Body(pos, |done|), Lookup(env.blueprint, loop.id).value.loop.body[|done|], rest[0]);
  }

  /** A common step succeeds on both sides, and both go on with the rest of the body. */
  lemma BodyGoesOn(env: Env, c: Core, pos: nat, loop: LoopDef, done: seq<Leaf>, rest: seq<StepDef>, m: nat)
    returns (first: StepRun, c2: Core)
    requires InBody(env, c, pos, loop, [], 0, done, rest) && |done| < m < |loop.body|
    requires c.replies == Successes(m - |done|) && StepFound(env.blueprint, loop, |done|, loop.body[|done|])
    ensures InBody(env, c2, pos, loop, [], 0, done + [first.leaf], rest[1..])
    ensures c2.replies == Successes(m - |done| - 1) && Final(env, c2) == Final(env, c)
    ensures var run := RunBody(env, rest, pos, |done|, 1, HistoryAt(c, pos, [], done), World(c.replies, c.executed));
            var rest := RunBody(env, rest[1..], pos, |done| + 1, 1, HistoryAt(c2, pos, [], done + [first.leaf]),
                                World(c2.replies, c2.executed));
            run.end == rest.end && run.world == rest.world
  {
    hide Next, Outcomes, LeavesOutcomes, IterationsOutcomes, Runnable, SetLeaf, RunStep, Final, SelectMove;
    var history := HistoryAt(c, pos, [], done);
    var w := World(c.replies, c.executed);
    assert rest[0] == loop.body[|done|];
    StepSucceeds(env, rest[0], Spot(Body(pos, |done|), Some(1)), history, w, m - |done|);
    first := RunStep(env, rest[0], Spot(Body(pos, |done|), Some(1)), [], 1, history, w);
    BodyFirst(env, c, pos, loop, [], 0, done, rest);
    c2 := AfterFirst(c, pos, loop, [], 0, done, rest, first);
    BodyContinues(env, c, c2, pos, loop, [], 0, done, rest, first);
    LeadsFinal(env, c, c2);
  }

  lemma InBodySelects(env: Env, c: Core, pos: nat, loop: LoopDef, done: seq<Leaf>, rest: seq<StepDef>)
    requires InBody(env, c, pos, loop, [], 0, done, rest) && rest != []
    ensures Sound(env, c) && LeafAt(c.nodes, Body(pos, |done|))
    ensures GetLeaf(c.nodes, Body(pos, |done|)) == PendingLeaf(rest[0])
    ensures SelectMove(env.blueprint, c.nodes)
         == RunSlot(Body(pos, |done|), Lookup(env.blueprint, loop.id).value.loop.body[|done|])
  {
    FirstLiveIs(c.nodes, pos);
    var steps := Last(c.nodes[pos].iterations).steps;
    assert steps == done + PendingLeaves(rest);
    FirstLiveLeafIs(steps, |steps|, |done|);
  }

  lemma BodySameLength(env: Env, c: Core, done: seq<Node>, rest: seq<Definition>)
    requires AtPlan(env, c, done, rest) && rest != [] && rest[0].LoopItem?
    requires Lookup(env.blueprint, rest[0].loop.id).Some? && Lookup(env.blueprint, rest[0].loop.id).value.LoopItem?
    ensures FindsLike(env.blueprint, rest[0].loop)
  {
    PlanSelects(env, c, done, rest);
    assert RunnableNode(env.blueprint, c.nodes[|done|]);
  }

  lemma LoopsPart(env: Env, c: Core, done: seq<Node>, rest: seq<Definition>)
    requires AtPlan(env, c, done, rest) && rest != [] && rest[0].LoopItem? && FindsLike(env.blueprint, rest[0].loop)
    requires var found := Lookup(env.blueprint, rest[0].loop.id).value.loop.body;
             found != rest[0].loop.body && c.replies == Successes(Common(rest[0].loop.body, found))
    ensures Final(env, c) != AfterPlan(c, done,
                                       RunPlan(env, rest, |done|, Outcomes(done), World(c.replies, c.executed)))
  {
    hide Next, SelectMove, Runnable, Final, Outcomes, NodeOutcomes, RunBody, InBody;
    var loop := rest[0].loop;
    var found := Lookup(env.blueprint, loop.id).value.loop.body;
    var m := Common(loop.body, found);
    PlanLoopBegins(env, c, done, rest);
    FinalUnfolds(env, c);
    var c1 := Next(env, c);
    forall i | 0 <= i < m
      ensures StepFound(env.blueprint, loop, i, loop.body[i])
    {
      assert loop.body[..m][i] == found[..m][i];
    }
    HistoryEmpty(c1, |done|, []);
    BodiesPart(env, c1, |done|, loop, [], loop.body, m);
    PlanDies(env, rest, |done|, Outcomes(done), World(c.replies, c.executed));
  }

  // ---- the exact condition ----

  /** How far both get when this definition does not find its own. */
  function Shared(defs: seq<Definition>, d: Definition): nat {
    if d.LoopItem? && Lookup(defs, d.loop.id).Some? && Lookup(defs, d.loop.id).value.LoopItem? then
      Common(d.loop.body, Lookup(defs, d.loop.id).value.loop.body)
    else 0
  }

  lemma Part(env: Env, c: Core, done: seq<Node>, rest: seq<Definition>)
    requires AtPlan(env, c, done, rest) && rest != [] && !FindsOwn(env.blueprint, rest[0])
    requires env == Willing(env.blueprint) && c.replies == Successes(Shared(env.blueprint, rest[0]))
    ensures Final(env, c) != AfterPlan(c, done,
                                       RunPlan(env, rest, |done|, Outcomes(done), World(c.replies, c.executed)))
  {
    assert rest[0] == env.blueprint[|done|];
    LookupFinds(env.blueprint, |done|);
    var found := Lookup(env.blueprint, DefinitionId(rest[0])).value;
    hide Final, AfterPlan, RunPlan, Outcomes, AtPlan, Lookup;
    if found.StepItem? != rest[0].StepItem? {
      KindsPart(env, c, done, rest);
    } else if found.StepItem? {
      StepsPart(env, c, done, rest);
    } else {
      BodySameLength(env, c, done, rest);
      LoopsPart(env, c, done, rest);
    }
  }

  /** The first definition that does not find its own. */
  lemma {:induction false} FirstLost(defs: seq<Definition>, n: nat) returns (i: nat)
    requires n <= |defs| && exists k :: 0 <= k < n && !FindsOwn(defs, defs[k])
    ensures i < n && !FindsOwn(defs, defs[i]) && forall k :: 0 <= k < i ==> FindsOwn(defs, defs[k])
  {
    i := 0;
    while FindsOwn(defs, defs[i])
      invariant i < n && (forall k :: 0 <= k < i ==> FindsOwn(defs, defs[k]))
      invariant exists k :: i <= k < n && !FindsOwn(defs, defs[k])
      decreases n - i
    {
      i := i + 1;
    }
  }

  /** The run that goes wrong: all steps succeed up to the first definition that does not find its own. */
  lemma LostRunsDiffer(defs: seq<Definition>) returns (replies: seq<Reply>)
    requires Runnable(defs, PlanNodes(defs)) && !Resolvable(defs)
    ensures var env := Willing(defs);
            Final(env, Loaded(PlanNodes(defs), replies)) != Finished(RunPlan(env, defs, 0, [], World(replies, [])))
  {
    hide Next, Final, RunPlan, NodeOutcomes, Runnable, AtPlan, AfterPlan, FindsOwn;
    var env := Willing(defs);
    var i := FirstLost(defs, |defs|);
    replies := Successes(CallsOfAll(defs[..i]) + Shared(defs, defs[i]));
    var c := Loaded(PlanNodes(defs), replies);
    var c0 := c.(control := Ready);
    PlanStarts(env, c, c0);
    var c1, done1 := PrefixRuns(env, c0, [], defs, i, Shared(defs, defs[i]));
    LeadsFinal(env, c0, c1);
    Part(env, c1, done1, defs[i..]);
  }

  lemma PlanStarts(env: Env, c: Core, c0: Core)
    requires Runnable(env.blueprint, PlanNodes(env.blueprint))
    requires c == Loaded(PlanNodes(env.blueprint), c.replies) && c0 == c.(control := Ready)
    ensures Final(env, c) == Final(env, c0) && AtPlan(env, c0, [], env.blueprint)
    ensures forall run: PlanRun :: AfterPlan(c0, [], run) == Finished(run)
  {
    hide Next, Runnable;
    var nodes := PlanNodes(env.blueprint);
    NoOpenPlan(env.blueprint);
    StartsReady(env, c);
    FinalUnfolds(env, c);
    assert [] + nodes == nodes && env.blueprint[0..] == env.blueprint;
    forall run: PlanRun
      ensures AfterPlan(c0, [], run) == Finished(run)
    {
      assert [] + run.nodes == run.nodes;
    }
  }

  lemma NoOpenPlan(defs: seq<Definition>)
    ensures !HasOpenAttempt(PlanNodes(defs))
  {
    forall i | 0 <= i < |defs|
      ensures !NodeHasOpenAttempt(PlanNodes(defs)[i])
    {
      assert PlanNodes(defs)[i] == PlanNode(defs[i]);
    }
  }

  /** A blueprint runs as written exactly when every definition, looked up by its id, finds the same step or a loop with
      the same body. */
  lemma RunsAsWrittenIff(defs: seq<Definition>)
    ensures RunsAsWritten(defs) <==> Resolvable(defs)
  {
    hide Final, RunPlan, Runnable, Resolvable;
    if Resolvable(defs) {
      PlanRunnable(Willing(defs));
      forall env: Env, replies: seq<Reply> | env.blueprint == defs
        ensures Final(env, Loaded(PlanNodes(defs), replies)) == Finished(RunPlan(env, defs, 0, [], World(replies, [])))
      {
        CoordinatorRefinesInterpreter(env, replies);
      }
    } else if Runnable(defs, PlanNodes(defs)) {
      var replies := LostRunsDiffer(defs);
      assert Willing(defs).blueprint == defs;
    }
  }
}
