/** The checks a resume makes of a stored tree (loader.py, state_validation.py), and why a paused run passes them. */
module Loader {
  import opened StateModels
  import opened LoopPolicy
  import opened Transitions
  import opened Rows
  import opened Refinement
  import opened Moves
  import opened Frontier
  import opened Guarantees
  import opened Restart

  datatype LeafVerdict = Resumable | NothingLeft | PausedWithoutResult

  predicate PausedRecorded(leaf: Leaf) {
    leaf.state.Paused? ==> leaf.attempts != [] && Last(leaf.attempts).result.Some?
  }

  predicate NodePausedRecorded(n: Node) {
    match n
    case StepNode(leaf) => PausedRecorded(leaf)
    case LoopNode(_, _, _, _, _, its, _) =>
      forall i :: 0 <= i < |its| ==> forall j :: 0 <= j < |its[i].steps| ==> PausedRecorded(its[i].steps[j])
  }

  predicate AllTerminated(nodes: seq<Node>) {
    forall i :: 0 <= i < |nodes| ==> Terminal(NodeStateOf(nodes[i]))
  }

  predicate AllPausedRecorded(nodes: seq<Node>) {
    forall i :: 0 <= i < |nodes| ==> NodePausedRecorded(nodes[i])
  }

  /** The paused leaf at this place has no attempt, or no result of its last one. */
  predicate Unrecorded(nodes: seq<Node>, p: Place) {
    && HasLeaf(nodes, p) && LeafOf(nodes, p).state.Paused?
    && (LeafOf(nodes, p).attempts == [] || Last(LeafOf(nodes, p).attempts).result.None?)
  }

  lemma AllPausedRecordedIff(nodes: seq<Node>)
    ensures AllPausedRecorded(nodes) <==> !exists p: Place :: Unrecorded(nodes, p)
  {
    forall i | 0 <= i < |nodes| && !NodePausedRecorded(nodes[i])
      ensures exists p: Place :: Unrecorded(nodes, p)
    {
      if nodes[i].StepNode? {
        assert Unrecorded(nodes, StepPlace(i));
      } else {
        var its := nodes[i].iterations;
        var j :| 0 <= j < |its| && !forall l :: 0 <= l < |its[j].steps| ==> PausedRecorded(its[j].steps[l]);
        var l :| 0 <= l < |its[j].steps| && !PausedRecorded(its[j].steps[l]);
        assert Unrecorded(nodes, BodyPlace(i, j, l));
      }
    }
    if p: Place :| Unrecorded(nodes, p) { assert !NodePausedRecorded(nodes[p.pos]); }
  }

  /** _validate_paused_leaves. */
  method ValidatePausedLeaves(nodes: seq<Node>) returns (r: LeafVerdict)
    ensures r.NothingLeft? <==> AllTerminated(nodes)
    ensures r.PausedWithoutResult? <==> !AllTerminated(nodes) && exists p: Place :: Unrecorded(nodes, p)
    ensures r.Resumable? <==> !AllTerminated(nodes) && AllPausedRecorded(nodes)
  {
    AllPausedRecordedIff(nodes);
    var p := 0;
    while p < |nodes| && Terminal(NodeStateOf(nodes[p]))
      invariant p <= |nodes| && forall i :: 0 <= i < p ==> Terminal(NodeStateOf(nodes[i]))
    {
      p := p + 1;
    }
    if p == |nodes| {
      return NothingLeft;
    }
    for i := 0 to |nodes|
      invariant forall k :: 0 <= k < i ==> NodePausedRecorded(nodes[k])
    {
      if nodes[i].StepNode? {
        if !PausedRecorded(nodes[i].leaf) { return PausedWithoutResult; }
      } else {
        var its := nodes[i].iterations;
        for j := 0 to |its|
          invariant forall k :: 0 <= k < j ==> forall l :: 0 <= l < |its[k].steps| ==> PausedRecorded(its[k].steps[l])
        {
          for l := 0 to |its[j].steps|
            invariant forall m :: 0 <= m < l ==> PausedRecorded(its[j].steps[m])
          {
            if !PausedRecorded(its[j].steps[l]) {
              assert !NodePausedRecorded(nodes[i]);
              return PausedWithoutResult;
            }
          }
        }
      }
    }
    r := Resumable;
  }

  // ---- loop structure ----

  /** A loop without a definition, or an iteration whose steps are not the loop's body. */
  datatype StructureError = UnknownLoop(id: string) | BodyMismatch(id: string, number: nat)

  /** The loops of a blueprint by id; a later definition replaces an earlier one. */
  function LoopTable(defs: seq<Definition>): map<string, LoopDef> {
    if defs == [] then map[]
    else
      var earlier := LoopTable(defs[..|defs| - 1]);
      if Last(defs).LoopItem? then earlier[Last(defs).loop.id := Last(defs).loop] else earlier
  }

  predicate SameIds(body: seq<StepDef>, leaves: seq<Leaf>) {
    |leaves| == |body| && forall i :: 0 <= i < |body| ==> leaves[i].id == body[i].id
  }

  function IterationErrors(id: string, its: seq<Iteration>, loop: LoopDef): seq<StructureError> {
    if its == [] then []
    else
      IterationErrors(id, its[..|its| - 1], loop)
      + (if SameIds(loop.body, Last(its).steps) then [] else [BodyMismatch(id, Last(its).number)])
  }

  function NodeErrors(n: Node, loops: map<string, LoopDef>): seq<StructureError> {
    if n.StepNode? then []
    else if n.id !in loops then [UnknownLoop(n.id)]
    else IterationErrors(n.id, n.iterations, loops[n.id])
  }

  function StructureErrors(nodes: seq<Node>, loops: map<string, LoopDef>): seq<StructureError> {
    if nodes == [] then [] else StructureErrors(nodes[..|nodes| - 1], loops) + NodeErrors(Last(nodes), loops)
  }

  /** validate_loop_structure, its message list as typed errors. */
  method ValidateLoopStructure(nodes: seq<Node>, defs: seq<Definition>) returns (errors: seq<StructureError>)
    ensures errors == StructureErrors(nodes, LoopTable(defs))
    ensures forall e :: e in errors <==> exists i :: 0 <= i < |nodes| && ErrorOf(nodes[i], LoopTable(defs), e)
  {
    forall e
      ensures e in StructureErrors(nodes, LoopTable(defs))
              <==> exists i :: 0 <= i < |nodes| && ErrorOf(nodes[i], LoopTable(defs), e)
    {
      StructureErrorsAre(nodes, LoopTable(defs), e);
    }
    hide ErrorOf;
    var loops := map[];
    for i := 0 to |defs|
      invariant loops == LoopTable(defs[..i])
    {
      assert defs[..i + 1][..i] == defs[..i];
      if defs[i].LoopItem? { loops := loops[defs[i].loop.id := defs[i].loop]; }
    }
    assert defs[..|defs|] == defs;
    errors := [];
    for i := 0 to |nodes|
      invariant errors == StructureErrors(nodes[..i], loops)
    {
      assert nodes[..i + 1][..i] == nodes[..i];
      if nodes[i].LoopNode? {
        if nodes[i].id !in loops {
          errors := errors + [UnknownLoop(nodes[i].id)];
        } else {
          var found := CollectIterationErrors(nodes[i].id, nodes[i].iterations, loops[nodes[i].id]);
          errors := errors + found;
        }
      }
    }
    assert nodes[..|nodes|] == nodes;
  }

  /** The loop of _iteration_errors. */
  method CollectIterationErrors(id: string, its: seq<Iteration>, loop: LoopDef) returns (errors: seq<StructureError>)
    ensures errors == IterationErrors(id, its, loop)
  {
    errors := [];
    for i := 0 to |its|
      invariant errors == IterationErrors(id, its[..i], loop)
    {
      assert its[..i + 1][..i] == its[..i];
      if !SameIds(loop.body, its[i].steps) { errors := errors + [BodyMismatch(id, its[i].number)]; }
    }
    assert its[..|its|] == its;
  }

  /** No error means every iteration of every loop has exactly the body its definition gives, and vice versa. */
  predicate WellStructured(nodes: seq<Node>, loops: map<string, LoopDef>) {
    forall i :: 0 <= i < |nodes| ==> NodeStructured(nodes[i], loops)
  }

  predicate NodeStructured(n: Node, loops: map<string, LoopDef>) {
    n.LoopNode? ==>
      n.id in loops && forall j :: 0 <= j < |n.iterations| ==> Embodies(n.iterations[j].steps, loops[n.id].body)
  }

  /** These leaves are the body's steps, in order. */
  predicate Embodies(leaves: seq<Leaf>, body: seq<StepDef>) {
    |leaves| == |body| && forall k :: 0 <= k < |leaves| ==> leaves[k].id == body[k].id
  }

  lemma SameIdsEmbody(body: seq<StepDef>, leaves: seq<Leaf>)
    ensures SameIds(body, leaves) <==> Embodies(leaves, body)
  {
  }

  /** The last loop definition with this id is definition i. */
  predicate LastLoop(defs: seq<Definition>, i: nat, id: string) {
    && i < |defs| && defs[i].LoopItem? && defs[i].loop.id == id
    && forall j :: i < j < |defs| && defs[j].LoopItem? ==> defs[j].loop.id != id
  }

  /** The table has the last definition of each loop, and no other. */
  lemma {:induction false} LoopTableIs(defs: seq<Definition>, id: string)
    ensures id in LoopTable(defs) <==> exists i :: 0 <= i < |defs| && LastLoop(defs, i, id)
    ensures forall i :: 0 <= i < |defs| && LastLoop(defs, i, id) ==>
              id in LoopTable(defs) && LoopTable(defs)[id] == defs[i].loop
  {
    if defs != [] {
      var n := |defs| - 1;
      var rest := defs[..n];
      LoopTableIs(rest, id);
      if defs[n].LoopItem? && defs[n].loop.id == id {
        assert LastLoop(defs, n, id);
      } else {
        assert forall i :: 0 <= i < n ==> rest[i] == defs[i];
        assert forall i :: 0 <= i < n ==> LastLoop(rest, i, id) == LastLoop(defs, i, id);
      }
    }
  }

  /** The errors of one loop node. */
  predicate ErrorOf(n: Node, loops: map<string, LoopDef>, e: StructureError) {
    n.LoopNode? &&
    if n.id !in loops then e == UnknownLoop(n.id)
    else
      exists j :: 0 <= j < |n.iterations| && !Embodies(n.iterations[j].steps, loops[n.id].body)
                  && e == BodyMismatch(n.id, n.iterations[j].number)
  }

  /** The errors reported are those of the loops, and no others. */
  lemma {:induction false} StructureErrorsAre(nodes: seq<Node>, loops: map<string, LoopDef>, e: StructureError)
    ensures e in StructureErrors(nodes, loops) <==> exists i :: 0 <= i < |nodes| && ErrorOf(nodes[i], loops, e)
  {
    hide ErrorOf, NodeErrors;
    if nodes != [] {
      var rest := nodes[..|nodes| - 1];
      StructureErrorsAre(rest, loops, e);
      NodeErrorsAre(Last(nodes), loops, e);
      assert forall i :: 0 <= i < |rest| ==> rest[i] == nodes[i];
      if ErrorOf(Last(nodes), loops, e) { assert ErrorOf(nodes[|nodes| - 1], loops, e); }
    }
  }

  lemma NodeErrorsAre(n: Node, loops: map<string, LoopDef>, e: StructureError)
    ensures e in NodeErrors(n, loops) <==> ErrorOf(n, loops, e)
  {
    hide Embodies;
    if n.LoopNode? && n.id in loops { IterationErrorsAre(n.id, n.iterations, loops[n.id], e); }
  }

  lemma {:induction false} IterationErrorsAre(id: string, its: seq<Iteration>, loop: LoopDef, e: StructureError)
    ensures e in IterationErrors(id, its, loop) <==>
              exists j :: 0 <= j < |its| && !Embodies(its[j].steps, loop.body) && e == BodyMismatch(id, its[j].number)
  {
    hide SameIds, Embodies;
    if its != [] {
      var rest := its[..|its| - 1];
      IterationErrorsAre(id, rest, loop, e);
      SameIdsEmbody(loop.body, Last(its).steps);
      assert forall j :: 0 <= j < |rest| ==> rest[j] == its[j];
    }
  }

  lemma {:induction false} IterationErrorsIff(id: string, its: seq<Iteration>, loop: LoopDef)
    ensures IterationErrors(id, its, loop) == [] <==> forall j :: 0 <= j < |its| ==> SameIds(loop.body, its[j].steps)
  {
    hide SameIds;
    if its != [] {
      IterationErrorsIff(id, its[..|its| - 1], loop);
      assert forall j :: 0 <= j < |its| - 1 ==> its[..|its| - 1][j] == its[j];
    }
  }

  lemma {:induction false} StructureErrorsIff(nodes: seq<Node>, loops: map<string, LoopDef>)
    ensures StructureErrors(nodes, loops) == [] <==> WellStructured(nodes, loops)
  {
    hide NodeErrors, NodeStructured;
    if nodes != [] {
      StructureErrorsIff(nodes[..|nodes| - 1], loops);
      NodeErrorsIff(Last(nodes), loops);
      assert forall j :: 0 <= j < |nodes| - 1 ==> nodes[..|nodes| - 1][j] == nodes[j];
    }
  }

  lemma NodeErrorsIff(n: Node, loops: map<string, LoopDef>)
    ensures NodeErrors(n, loops) == [] <==> NodeStructured(n, loops)
  {
    hide SameIds, Embodies;
    if n.LoopNode? && n.id in loops {
      IterationErrorsIff(n.id, n.iterations, loops[n.id]);
      forall j | 0 <= j < |n.iterations|
        ensures SameIds(loops[n.id].body, n.iterations[j].steps)
                <==> Embodies(n.iterations[j].steps, loops[n.id].body)
      {
        SameIdsEmbody(loops[n.id].body, n.iterations[j].steps);
      }
    }
  }

  // ---- committed trees pass ----

  lemma {:induction false} TableHas(defs: seq<Definition>, n: nat, i: nat)
    requires Resolvable(defs) && i < n <= |defs| && defs[i].LoopItem?
    ensures defs[i].loop.id in LoopTable(defs[..n]) && LoopTable(defs[..n])[defs[i].loop.id].body == defs[i].loop.body
    decreases n
  {
    assert defs[..n][..n - 1] == defs[..n - 1] && Last(defs[..n]) == defs[n - 1];
    assert FindsOwn(defs, defs[i]) && FindsOwn(defs, defs[n - 1]);
    if i < n - 1 { TableHas(defs, n - 1, i); }
  }

  lemma NamedBody(env: Env, loop: LoopDef, n: Node, i: nat)
    requires DoneLoop(env, loop, n) || LiveLoop(env, loop, n) || BrokenLoop(env, loop, n)
    requires n.LoopNode? && i < |n.iterations|
    ensures n.id == loop.id && SameIds(loop.body, n.iterations[i].steps)
  {
    hide UntilHolds;
    if n == PlanNode(LoopItem(loop)) {
    } else if i < |n.iterations| - 1 {
      ClosedNames(env, loop, n.iterations[i], i + 1);
    } else if LoopClosed(env, loop, n) {
      ClosedNames(env, loop, n.iterations[i], i + 1);
    } else if l :| 0 <= l <= |loop.body| && LoopRunningAt(env, loop, n, l) {
      BodyNames(loop.body, n.iterations[i].steps, l, false);
    } else {
      var l :| 0 <= l < |loop.body| && LoopBrokenAt(env, loop, n, l);
      BodyNames(loop.body, n.iterations[i].steps, l, true);
    }
  }

  lemma ClosedNames(env: Env, loop: LoopDef, it: Iteration, number: nat)
    requires ClosedIteration(env, loop, it, number)
    ensures SameIds(loop.body, it.steps)
  {
    assert forall i :: 0 <= i < |it.steps| ==> DoneLeaf(loop.body[i], it.steps[i]);
  }

  lemma BodyNames(steps: seq<StepDef>, leaves: seq<Leaf>, j: nat, broken: bool)
    requires BodyAt(steps, leaves, j, broken)
    ensures SameIds(steps, leaves)
  {
    forall i | 0 <= i < |steps|
      ensures leaves[i].id == steps[i].id
    {
      if i < j { assert DoneLeaf(steps[i], leaves[i]); }
      if i > j { assert leaves[i] == PendingLeaf(steps[i]); }
    }
  }

  /** Every committed tree passes validate_loop_structure for its own blueprint. */
  lemma CommittedIsStructured(env: Env, nodes: seq<Node>, k: nat)
    requires Resolvable(env.blueprint) && Committed(env, nodes, k)
    ensures StructureErrors(nodes, LoopTable(env.blueprint)) == []
  {
    hide DoneLoop, LiveLoop, BrokenLoop, SameIds, Embodies;
    var loops := LoopTable(env.blueprint);
    StructureErrorsIff(nodes, loops);
    hide StructureErrors;
    assert env.blueprint[..|env.blueprint|] == env.blueprint;
    forall i | 0 <= i < |nodes|
      ensures NodeStructured(nodes[i], loops)
    {
      var d := env.blueprint[i];
      if i > k { PlanIsLive(env, d); }
      if d.LoopItem? {
        IsLoop(env, d.loop, nodes[i]);
        NamedBody(env, d.loop, nodes[i], 0);
        TableHas(env.blueprint, |env.blueprint|, i);
        forall j | 0 <= j < |nodes[i].iterations|
          ensures Embodies(nodes[i].iterations[j].steps, loops[nodes[i].id].body)
        {
          NamedBody(env, d.loop, nodes[i], j);
          SameIdsEmbody(loops[nodes[i].id].body, nodes[i].iterations[j].steps);
        }
      }
    }
  }

  /** A live tree with something left to do passes _validate_paused_leaves. */
  lemma LiveIsResumable(env: Env, nodes: seq<Node>, k: nat)
    requires LiveTree(env, nodes, k) && k < |nodes|
    ensures !AllTerminated(nodes) && AllPausedRecorded(nodes)
  {
    LiveIsNot(env, env.blueprint[k], nodes[k]);
    PausedRecordedIn(env, nodes, k);
  }

  lemma PausedRecordedIn(env: Env, nodes: seq<Node>, k: nat)
    requires Committed(env, nodes, k)
    ensures AllPausedRecorded(nodes)
  {
    hide LiveTree, BrokenTree;
    forall i | 0 <= i < |nodes|
      ensures NodePausedRecorded(nodes[i])
    {
      if nodes[i].StepNode? {
        LeafRecorded(env, nodes, k, StepPlace(i));
      } else {
        forall j, l | 0 <= j < |nodes[i].iterations| && 0 <= l < |nodes[i].iterations[j].steps|
          ensures PausedRecorded(nodes[i].iterations[j].steps[l])
        {
          LeafRecorded(env, nodes, k, BodyPlace(i, j, l));
        }
      }
    }
  }

  /** Both checks accept this tree. */
  predicate Accepted(env: Env, nodes: seq<Node>) {
    !AllTerminated(nodes) && AllPausedRecorded(nodes) && StructureErrors(nodes, LoopTable(env.blueprint)) == []
  }

  /** The coordinator's prompt is open, or its run ended with the prompt open. */
  predicate AtPrompt(c: Core) {
    c.control.Prompting? || c.control == Halted(Returned(RunPaused))
  }

  /** A commit carries the status its outcome calls for; without one the prompt stays as it was. */
  predicate EffectSays(c: Core, e: Effect) {
    if e.commit then
      && (AtPrompt(e.core) <==> e.status == Some(RunPaused))
      && (e.status == None || e.status == Some(RunPaused) || e.status == Some(RunRunning))
      && (AtPrompt(c) ==> e.status == Some(RunRunning)) && e.core.control != Halted(Killed)
    else
      e.core.control == Halted(Killed) || (AtPrompt(e.core) <==> AtPrompt(c))
  }

  lemma ProposeSays(env: Env, c: Core)
    requires Sound(env, c) && !c.control.Halted?
    ensures EffectSays(c, Propose(env, c))
  {
    hide SelectMove, AdvanceSlot, ApplyLoopDecision, AnswerPrompt, SetLeaf;
    if c.control.Ready? {
      var move := SelectMove(env.blueprint, c.nodes);
      if move.RunSlot? {
        SlotSelected(env, c.nodes, move.at, move.step);
        hide Runnable;
        SlotStatus(env, c, move.at, move.step);
        SlotCommitsAlive(env, c, move.at, move.step);
      } else if move.LoopMove? {
        LoopMoveFits(env, c.nodes, move);
        hide Runnable;
        DecisionSays(env, c, move.pos, move.body, move.decision);
      } else {
        hide Runnable;
      }
    } else if c.control.Prompting? {
      hide ApplyMove, Runnable;
      AnswerSays(env, c, c.control.at);
    } else {
      hide ApplyMove, Runnable;
    }
  }

  lemma DecisionSays(env: Env, c: Core, pos: nat, body: seq<StepDef>, decision: LoopDecision)
    requires LoopAt(c.nodes, pos) && !decision.AdvanceBodyStep? && c.control.Ready?
    ensures EffectSays(c, ApplyLoopDecision(env, c, pos, body, decision))
  {
    hide UntilHolds;
  }

  lemma AnswerSays(env: Env, c: Core, at: Target)
    requires c.control == Prompting(at) && ControlFits(c)
    ensures EffectSays(c, AnswerPrompt(env, c, at))
  {
    hide SetLeaf;
  }

  lemma SlotCommitsAlive(env: Env, c: Core, at: Target, step: StepDef)
    requires LeafAt(c.nodes, at) && RunnableLeaf(GetLeaf(c.nodes, at)) && !Terminal(GetLeaf(c.nodes, at).state)
    ensures AdvanceSlot(env, c, at, step).commit ==> AdvanceSlot(env, c, at, step).core.control != Halted(Killed)
  {
    hide SetLeaf, Settle, Gate;
    GateAlive(env, c, at, step);
    if GetLeaf(c.nodes, at).state.Running? && c.replies != [] && !c.replies[0].Interrupt? {
      var c2 := c.(executed := c.executed + [ExecutionOf(c.nodes, at, step)], replies := c.replies[1..]);
      SettleAlive(env, c2, at, step, c.replies[0].result);
    }
  }

  /** A slot is committed with the status its outcome calls for, and leaves it alone otherwise. */
  predicate SlotSays(e: Effect) {
    && !e.core.control.Starting? && e.core.control != Halted(Returned(RunPaused))
    && (e.core.control.Prompting? <==> e.commit && e.status == Some(RunPaused))
    && (e.commit && !e.core.control.Prompting? ==> e.status == None || e.status == Some(RunRunning))
  }

  lemma SlotStatus(env: Env, c: Core, at: Target, step: StepDef)
    requires LeafAt(c.nodes, at) && RunnableLeaf(GetLeaf(c.nodes, at)) && !Terminal(GetLeaf(c.nodes, at).state)
    ensures SlotSays(AdvanceSlot(env, c, at, step))
  {
    hide Gate, Settle, SetLeaf, ExecutionOf;
    if GetLeaf(c.nodes, at).state.Paused? {
      GateStatus(env, c, at, step);
    } else if !GetLeaf(c.nodes, at).state.Pending? && c.replies != [] && !c.replies[0].Interrupt? {
      var c2 := c.(executed := c.executed + [ExecutionOf(c.nodes, at, step)], replies := c.replies[1..]);
      SettleStatus(env, c2, at, step, c.replies[0].result);
    }
  }

  lemma SettleStatus(env: Env, c: Core, at: Target, step: StepDef, result: StepResult)
    requires LeafAt(c.nodes, at) && GetLeaf(c.nodes, at).attempts != []
    ensures SlotSays(Settle(env, c, at, step, result))
  {
    hide Gate, SetLeaf;
    GateStatus(env, c.(nodes := SetLeaf(c.nodes, at, RecordResult(GetLeaf(c.nodes, at), result))), at, step);
  }

  lemma GateStatus(env: Env, c: Core, at: Target, step: StepDef)
    requires LeafAt(c.nodes, at)
    ensures SlotSays(Gate(env, c, at, step))
  {
    hide SetLeaf;
  }

  lemma PausedIsAccepted(env: Env, m: Machine, k: nat)
    requires Resolvable(env.blueprint) && AtWork(env, m.core, k)
    requires AtPrompt(m.core) || m.core.control == Halted(Killed)
    ensures Accepted(env, m.core.nodes)
  {
    hide LiveTree, BrokenTree;
    CommittedIsStructured(env, m.core.nodes, k);
    LiveIsResumable(env, m.core.nodes, k);
  }

  /** The two checks alone do not keep a failed run from resuming: a tree that failed at a step with steps left passes
      both, and a coordinator started on it goes on after the failed step. Only the row's status stands in the way,
      and a losing coordinator's _finish_run can still set that to PAUSED over the winner's failed tree. */
  lemma FailedTreesPassToo(env: Env, nodes: seq<Node>, k: nat)
    requires Resolvable(env.blueprint) && BrokenTree(env, nodes, k) && env.blueprint[k].StepItem? && k + 1 < |nodes|
    ensures Accepted(env, nodes) && Runnable(env.blueprint, nodes) && FirstLive(nodes) == k + 1
  {
    hide LiveTree, BrokenTree, StructureErrors, Runnable, AllPausedRecorded;
    CommittedIsStructured(env, nodes, k);
    TreeRunnable(env, nodes, k);
    PausedRecordedIn(env, nodes, k);
    GoesOnAfterFailure(env, nodes, k);
  }

  lemma GoesOnAfterFailure(env: Env, nodes: seq<Node>, k: nat)
    requires BrokenTree(env, nodes, k) && env.blueprint[k].StepItem? && k + 1 < |nodes|
    ensures FirstLive(nodes) == k + 1 && !Terminal(NodeStateOf(nodes[k + 1]))
  {
    hide DoneNode;
    assert forall i :: 0 <= i < k ==> DoneNode(env, env.blueprint[i], nodes[i]);
    forall i | 0 <= i < k
      ensures Terminal(NodeStateOf(nodes[i]))
    {
      DoneIsTerminal(env, env.blueprint[i], nodes[i]);
    }
    assert nodes[k + 1] == PlanNode(env.blueprint[k + 1]);
    FirstLiveIs(nodes, k + 1);
  }
}
