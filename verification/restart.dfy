/** Crashes, restarts and pauses: a process may die between any two commits, and the next one goes on from the
    stored tree as if the dead one had been told that its open attempt failed as interrupted. */
module Restart {
  import opened StateModels
  import opened FailureRules
  import opened LoopPolicy
  import opened Projection
  import opened Transitions
  import opened Moves
  import opened Soundness
  import opened Solo
  import opened Refinement
  import opened Frontier

  // ---- what a step does not look at ----

  function Given(c: Core, rs: seq<Reply>): Core { c.(replies := rs) }

  function Having(c: Core, ex: seq<Execution>): Core { c.(executed := ex) }

  lemma GateBlind(env: Env, c: Core, at: Target, step: StepDef, rs: seq<Reply>, ex: seq<Execution>)
    requires LeafAt(c.nodes, at)
    ensures Gate(env, Having(Given(c, rs), ex), at, step).core == Having(Given(Gate(env, c, at, step).core, rs), ex)
  {
    hide SetLeaf;
  }

  lemma ActionBlind(c: Core, at: Target, action: StepAction, r: StepResult, rs: seq<Reply>, ex: seq<Execution>)
    requires LeafAt(c.nodes, at) && GetLeaf(c.nodes, at).attempts != []
    ensures ApplyAction(Having(Given(c, rs), ex), at, action, r, Some(RunRunning)).core
         == Having(Given(ApplyAction(c, at, action, r, Some(RunRunning)).core, rs), ex)
  {
    hide SetLeaf;
  }

  lemma SettleBlind(env: Env, c: Core, at: Target, step: StepDef, r: StepResult, rs: seq<Reply>, ex: seq<Execution>)
    requires LeafAt(c.nodes, at) && GetLeaf(c.nodes, at).attempts != []
    ensures Settle(env, Having(Given(c, rs), ex), at, step, r).core
          == Having(Given(Settle(env, c, at, step, r).core, rs), ex)
  {
    hide SetLeaf, Gate;
    GateBlind(env, c.(nodes := SetLeaf(c.nodes, at, RecordResult(GetLeaf(c.nodes, at), r))), at, step, rs, ex);
  }

  /** The replies a step leaves unread, and the executions it adds. */
  predicate Reads(a: Core, b: Core, u: nat) {
    u <= 1 && u <= |a.replies| && b.replies == a.replies[u..] && a.executed <= b.executed
  }

  /** b does from any other replies and history what it did from a's, when the replies it read are the same. */
  predicate SameStep(env: Env, a: Core, b: Core, u: nat, rest: seq<Reply>, ex: seq<Execution>)
    requires Sound(env, a) && Reads(a, b, u)
  {
    var a1 := Having(Given(a, a.replies[..u] + rest), ex);
    Sound(env, a1) && Propose(env, a1).core == Having(Given(b, rest), ex + b.executed[|a.executed|..])
  }

  lemma RunSame(env: Env, c: Core, at: Target, step: StepDef, rest: seq<Reply>, ex: seq<Execution>)
    requires LeafAt(c.nodes, at) && GetLeaf(c.nodes, at).attempts != []
    requires RunAttempt(env, c, at, step).core.control != Halted(Killed)
    ensures Reads(c, RunAttempt(env, c, at, step).core, 1)
    ensures var b := RunAttempt(env, c, at, step).core;
            RunAttempt(env, Having(Given(c, c.replies[..1] + rest), ex), at, step).core
            == Having(Given(b, rest), ex + b.executed[|c.executed|..])
  {
    hide Settle, SetLeaf, Outcomes, Numbered;
    var x := ExecutionOf(c.nodes, at, step);
    var c1 := Having(Given(c, c.replies[1..]), c.executed + [x]);
    assert (c.replies[..1] + rest)[1..] == rest && (c.executed + [x])[|c.executed|..] == [x];
    if !c.replies[0].Interrupt? {
      SettleBlind(env, c1, at, step, c.replies[0].result, rest, ex + [x]);
      SettleBlind(env, c1, at, step, c.replies[0].result, c1.replies, c1.executed);
    }
  }

  lemma SlotSame(env: Env, c: Core, at: Target, step: StepDef, rest: seq<Reply>, ex: seq<Execution>) returns (u: nat)
    requires LeafAt(c.nodes, at) && RunnableLeaf(GetLeaf(c.nodes, at)) && !Terminal(GetLeaf(c.nodes, at).state)
    requires AdvanceSlot(env, c, at, step).core.control != Halted(Killed)
    ensures Reads(c, AdvanceSlot(env, c, at, step).core, u)
    ensures var b := AdvanceSlot(env, c, at, step).core;
            AdvanceSlot(env, Having(Given(c, c.replies[..u] + rest), ex), at, step).core
            == Having(Given(b, rest), ex + b.executed[|c.executed|..])
  {
    hide Gate, RunAttempt, SetLeaf;
    var leaf := GetLeaf(c.nodes, at);
    u := if leaf.state.Running? then 1 else 0;
    if leaf.state.Running? {
      RunSame(env, c, at, step, rest, ex);
    } else {
      assert c.executed[|c.executed|..] == [] && ex + [] == ex && [] + rest == rest && c.replies[0..] == c.replies;
      if leaf.state.Paused? {
        GateBlind(env, c, at, step, rest, ex);
        GateBlind(env, c, at, step, c.replies, c.executed);
      }
    }
  }

  lemma CeilingSame(env: Env, c: Core, pos: nat, rest: seq<Reply>, ex: seq<Execution>) returns (u: nat)
    requires LoopAt(c.nodes, pos) && ResolveCeiling(env, c, pos).core.control != Halted(Killed)
    ensures Reads(c, ResolveCeiling(env, c, pos).core, u)
    ensures var b := ResolveCeiling(env, c, pos).core;
            ResolveCeiling(env, Having(Given(c, c.replies[..u] + rest), ex), pos).core
            == Having(Given(b, rest), ex + b.executed[|c.executed|..])
  {
    u := if env.Interactive() then 1 else 0;
    if env.Interactive() { assert (c.replies[..1] + rest)[1..] == rest; }
  }

  lemma AnswerSame(env: Env, c: Core, at: Target, rest: seq<Reply>, ex: seq<Execution>)
    requires c.control == Prompting(at) && ControlFits(c) && AnswerPrompt(env, c, at).core.control != Halted(Killed)
    ensures Reads(c, AnswerPrompt(env, c, at).core, 1)
    ensures var b := AnswerPrompt(env, c, at).core;
            AnswerPrompt(env, Having(Given(c, c.replies[..1] + rest), ex), at).core
            == Having(Given(b, rest), ex + b.executed[|c.executed|..])
  {
    hide ApplyAction;
    assert (c.replies[..1] + rest)[1..] == rest;
    if !c.replies[0].Interrupt? {
      var (action, recorded) := ApplyPromptDecision(c.replies[0].step,
                                                    Last(GetLeaf(c.nodes, at).attempts).result.value);
      ActionBlind(c, at, action, recorded, rest, ex);
      ActionBlind(c, at, action, recorded, c.replies[1..], c.executed);
      assert c == Having(c, c.executed);
    }
  }

  /** A step reads at most one reply and no past execution. */
  lemma NextSame(env: Env, c: Core, rest: seq<Reply>, ex: seq<Execution>) returns (u: nat)
    requires Sound(env, c) && !c.control.Halted? && Propose(env, c).core.control != Halted(Killed)
    ensures Reads(c, Propose(env, c).core, u) && SameStep(env, c, Propose(env, c).core, u, rest, ex)
    ensures u == |c.replies| - |Propose(env, c).core.replies| && c.executed <= Propose(env, c).core.executed
  {
    hide Runnable, UntilHolds, AnswerPrompt, ApplyMove;
    u := 0;
    match c.control
    case Starting =>
    case Prompting(at) =>
      AnswerSame(env, c, at, rest, ex);
      u := 1;
    case FailingLoop(_) => hide ApplyMove;
    case Ready => u := MoveSame(env, c, rest, ex);
  }

  lemma MoveSame(env: Env, c: Core, rest: seq<Reply>, ex: seq<Execution>) returns (u: nat)
    requires Sound(env, c) && c.control.Ready? && Propose(env, c).core.control != Halted(Killed)
    ensures Reads(c, Propose(env, c).core, u) && SameStep(env, c, Propose(env, c).core, u, rest, ex)
  {
    hide AdvanceSlot, Runnable, SelectMove, ApplyLoopDecision, Recover;
    var move := SelectMove(env.blueprint, c.nodes);
    u := 0;
    if move.RunSlot? {
      SlotSelected(env, c.nodes, move.at, move.step);
      u := SlotSame(env, c, move.at, move.step, rest, ex);
    } else if move.LoopMove? {
      LoopMoveFits(env, c.nodes, move);
      u := DecisionSame(env, c, move.pos, move.body, move.decision, rest, ex);
    }
  }

  lemma LoopMoveFits(env: Env, nodes: seq<Node>, move: Move)
    requires Runnable(env.blueprint, nodes) && SelectMove(env.blueprint, nodes) == move && move.LoopMove?
    ensures LoopAt(nodes, move.pos) && !move.decision.AdvanceBodyStep?
  {
    assert RunnableNode(env.blueprint, nodes[move.pos]);
  }

  lemma DecisionSame(env: Env, c: Core, pos: nat, body: seq<StepDef>, decision: LoopDecision, rest: seq<Reply>,
                     ex: seq<Execution>) returns (u: nat)
    requires LoopAt(c.nodes, pos) && !decision.AdvanceBodyStep?
    requires ApplyLoopDecision(env, c, pos, body, decision).core.control != Halted(Killed)
    ensures Reads(c, ApplyLoopDecision(env, c, pos, body, decision).core, u)
    ensures var b := ApplyLoopDecision(env, c, pos, body, decision).core;
            ApplyLoopDecision(env, Having(Given(c, c.replies[..u] + rest), ex), pos, body, decision).core
            == Having(Given(b, rest), ex + b.executed[|c.executed|..])
  {
    hide UntilHolds, ResolveCeiling;
    u := 0;
    assert c.executed[|c.executed|..] == [] && ex + [] == ex && [] + rest == rest;
    if decision.PromptCeiling? {
      u := CeilingSame(env, c, pos, rest, ex);
    }
  }

  lemma HaltedStays(env: Env, c: Core)
    requires Sound(env, c) && c.control.Halted?
    ensures Next(env, c) == c
  {
    hide ApplyMove;
  }

  lemma {:induction false} HaltedSteps(env: Env, c: Core, n: nat)
    requires Sound(env, c) && c.control.Halted?
    ensures Steps(env, c, n) == c
    decreases n
  {
    HaltedStays(env, c);
    if n > 0 { HaltedSteps(env, c, n - 1); }
  }

  /** n steps read a prefix of the replies and no past execution: they go the same way whatever replies follow. */
  lemma {:induction false} StepsSame(env: Env, c: Core, n: nat, rest: seq<Reply>, ex: seq<Execution>) returns (u: nat)
    requires Sound(env, c) && Steps(env, c, n).control != Halted(Killed)
    ensures var b := Steps(env, c, n);
            && u <= |c.replies| && b.replies == c.replies[u..] && c.executed <= b.executed
            && Sound(env, Having(Given(c, c.replies[..u] + rest), ex))
            && Steps(env, Having(Given(c, c.replies[..u] + rest), ex), n)
               == Having(Given(b, rest), ex + b.executed[|c.executed|..])
    decreases n
  {
    hide Runnable, Propose, Next, Reads, SameStep;
    u := 0;
    assert c.executed[|c.executed|..] == [] && ex + [] == ex && [] + rest == rest && c.replies[0..] == c.replies;
    if c.control.Halted? {
      HaltedSteps(env, c, n);
      HaltedSteps(env, Having(Given(c, rest), ex), n);
    } else if n > 0 {
      var c1 := Next(env, c);
      var b := Steps(env, c, n);
      assert b == Steps(env, c1, n - 1);
      hide Steps, Having, Given;
      if c1.control.Halted? { HaltedSteps(env, c1, n - 1); }
      NextIsPropose(env, c);
      var u0 := NextSame(env, c, [], []);
      var ex1 := ex + c1.executed[|c.executed|..];
      var u1 := StepsSame(env, c1, n - 1, rest, ex1);
      u := u0 + u1;
      var _ := NextSame(env, c, c1.replies[..u1] + rest, ex);
      StepsJoin(env, c, c1, b, n, u0, u1, rest, ex);
    }
  }

  lemma NextIsPropose(env: Env, c: Core)
    requires Sound(env, c)
    ensures Next(env, c) == Propose(env, c).core
  {
  }

  lemma NextChanges(env: Env, c: Core) returns (change: Change)
    requires Sound(env, c)
    ensures Allowed(c.nodes, change) && Next(env, c).nodes == Changed(c.nodes, change) && Placed(env, c, change)
  {
    NextIsPropose(env, c);
    change := ProposeChanges(env, c);
    hide Next, Propose, Runnable;
  }

  lemma StepsJoin(env: Env, c: Core, c1: Core, b: Core, n: nat, u0: nat, u1: nat, rest: seq<Reply>, ex: seq<Execution>)
    requires Sound(env, c) && c1 == Propose(env, c).core && Reads(c, c1, u0)
    requires n > 0 && u1 <= |c1.replies| && b.replies == c1.replies[u1..] && c1.executed <= b.executed
    requires SameStep(env, c, c1, u0, c1.replies[..u1] + rest, ex)
    requires var ex1 := ex + c1.executed[|c.executed|..];
             && Sound(env, Having(Given(c1, c1.replies[..u1] + rest), ex1))
             && Steps(env, Having(Given(c1, c1.replies[..u1] + rest), ex1), n - 1)
                == Having(Given(b, rest), ex1 + b.executed[|c1.executed|..])
    ensures u0 + u1 <= |c.replies| && b.replies == c.replies[u0 + u1..] && c.executed <= b.executed
    ensures Sound(env, Having(Given(c, c.replies[..u0 + u1] + rest), ex))
    ensures Steps(env, Having(Given(c, c.replies[..u0 + u1] + rest), ex), n)
         == Having(Given(b, rest), ex + b.executed[|c.executed|..])
  {
    hide Runnable, Propose;
    assert c.replies[..u0] + (c1.replies[..u1] + rest) == c.replies[..u0 + u1] + rest;
    assert ex + c1.executed[|c.executed|..] + b.executed[|c1.executed|..] == ex + b.executed[|c.executed|..];
    var a := Having(Given(c, c.replies[..u0 + u1] + rest), ex);
    NextIsPropose(env, a);
  }

  // ---- past executions never matter ----

  lemma NextHaving(env: Env, c: Core, ex: seq<Execution>)
    requires Sound(env, c)
    ensures c.executed <= Next(env, c).executed
    ensures Sound(env, Having(c, ex))
    ensures Next(env, Having(c, ex)) == Having(Next(env, c), ex + Next(env, c).executed[|c.executed|..])
  {
    hide Runnable, Propose;
    NextIsPropose(env, c);
    NextIsPropose(env, Having(c, ex));
    assert c.executed[|c.executed|..] == [] && ex + [] == ex;
    if c.control.Halted? {
      HaltedStays(env, c);
      HaltedStays(env, Having(c, ex));
    } else if Propose(env, c).core.control != Halted(Killed) {
      var u := NextSame(env, c, [], ex);
      var r := Propose(env, c).core.replies;
      var _ := NextSame(env, c, r, ex);
      assert c.replies[..u] + r == c.replies;
      assert Having(Given(c, c.replies), ex) == Having(c, ex);
    } else {
      KilledHaving(env, c, ex);
    }
  }

  lemma KilledHaving(env: Env, c: Core, ex: seq<Execution>)
    requires Sound(env, c) && !c.control.Halted? && Propose(env, c).core.control == Halted(Killed)
    ensures c.executed <= Propose(env, c).core.executed
    ensures Propose(env, Having(c, ex)).core
         == Having(Propose(env, c).core, ex + Propose(env, c).core.executed[|c.executed|..])
  {
    assert c.executed[|c.executed|..] == [] && ex + [] == ex;
    if c.control.Ready? {
      var move := SelectMove(env.blueprint, c.nodes);
      if move.RunSlot? {
        SlotSelected(env, c.nodes, move.at, move.step);
        hide SelectMove, Runnable, AdvanceSlot, ApplyLoopDecision;
        KilledSlot(env, c, move.at, move.step, ex);
      } else if move.LoopMove? {
        LoopMoveFits(env, c.nodes, move);
        hide SelectMove, Runnable, AdvanceSlot, ApplyLoopDecision;
        KilledDecision(env, c, move.pos, move.body, move.decision, ex);
      } else {
        hide SelectMove, Runnable, AdvanceSlot, ApplyLoopDecision;
      }
    } else {
      hide ApplyMove, Runnable, ApplyAction;
      if c.control.Prompting? && c.replies != [] && !c.replies[0].Interrupt? {
        var leaf := GetLeaf(c.nodes, c.control.at);
        var (action, recorded) := ApplyPromptDecision(c.replies[0].step, Last(leaf.attempts).result.value);
        ActionAlive(c.(replies := c.replies[1..]), c.control.at, action, recorded);
      }
    }
  }

  lemma ActionAlive(c: Core, at: Target, action: StepAction, r: StepResult)
    requires LeafAt(c.nodes, at) && GetLeaf(c.nodes, at).attempts != []
    ensures ApplyAction(c, at, action, r, Some(RunRunning)).core.control != Halted(Killed)
  {
    hide SetLeaf;
  }

  lemma KilledDecision(env: Env, c: Core, pos: nat, body: seq<StepDef>, decision: LoopDecision, ex: seq<Execution>)
    requires LoopAt(c.nodes, pos) && !decision.AdvanceBodyStep? && c.control.Ready?
    requires ApplyLoopDecision(env, c, pos, body, decision).core.control == Halted(Killed)
    ensures var b := ApplyLoopDecision(env, c, pos, body, decision).core;
            b.executed == c.executed && ApplyLoopDecision(env, Having(c, ex), pos, body, decision).core == Having(b, ex)
  {
  }

  lemma KilledSlot(env: Env, c: Core, at: Target, step: StepDef, ex: seq<Execution>)
    requires LeafAt(c.nodes, at) && RunnableLeaf(GetLeaf(c.nodes, at)) && !Terminal(GetLeaf(c.nodes, at).state)
    requires AdvanceSlot(env, c, at, step).core.control == Halted(Killed)
    ensures var b := AdvanceSlot(env, c, at, step).core;
            c.executed <= b.executed
            && AdvanceSlot(env, Having(c, ex), at, step).core == Having(b, ex + b.executed[|c.executed|..])
  {
    hide SetLeaf, Outcomes, Numbered, Gate, Settle;
    GateAlive(env, c, at, step);
    if GetLeaf(c.nodes, at).state.Running? {
      var x := ExecutionOf(c.nodes, at, step);
      assert (c.executed + [x])[|c.executed|..] == [x];
      if c.replies != [] && !c.replies[0].Interrupt? {
        SettleAlive(env, c.(executed := c.executed + [x], replies := c.replies[1..]), at, step, c.replies[0].result);
      }
    }
  }

  lemma GateAlive(env: Env, c: Core, at: Target, step: StepDef)
    requires LeafAt(c.nodes, at)
    ensures Gate(env, c, at, step).core.control != Halted(Killed)
  {
    hide SetLeaf;
  }

  lemma SettleAlive(env: Env, c: Core, at: Target, step: StepDef, r: StepResult)
    requires LeafAt(c.nodes, at) && GetLeaf(c.nodes, at).attempts != []
    ensures Settle(env, c, at, step, r).core.control != Halted(Killed)
  {
    hide SetLeaf, Gate;
    GateAlive(env, c.(nodes := SetLeaf(c.nodes, at, RecordResult(GetLeaf(c.nodes, at), r))), at, step);
  }

  lemma NextBelow(env: Env, c: Core)
    requires Sound(env, c) && !c.control.Halted?
    ensures Below(Next(env, c), c)
  {
    hide Propose, Below;
    ProposeLowers(env, c);
  }

  /** Where a run ends does not depend on what was executed before it. */
  lemma {:induction false} FinalHaving(env: Env, c: Core, ex: seq<Execution>)
    requires Sound(env, c)
    ensures c.executed <= Final(env, c).executed && Sound(env, Having(c, ex))
    ensures Final(env, Having(c, ex)) == Having(Final(env, c), ex + Final(env, c).executed[|c.executed|..])
    decreases |c.replies|, Rank(c.nodes), ControlRank(c.control)
  {
    hide Runnable, Propose, Next, Rank, ControlRank, Lowers;
    NextHaving(env, c, ex);
    assert c.executed[|c.executed|..] == [] && ex + [] == ex;
    if !c.control.Halted? {
      NextBelow(env, c);
      var c1 := Next(env, c);
      var ex1 := ex + c1.executed[|c.executed|..];
      FinalHaving(env, c1, ex1);
      var b := Final(env, c1);
      assert ex1 + b.executed[|c1.executed|..] == ex + b.executed[|c.executed|..];
    }
  }

  // ---- one crash ----

  /** The process was in the middle of an attempt: its slot is selected and its attempt is open. */
  predicate InCall(env: Env, c: Core)
    requires Sound(env, c)
  {
    && c.control.Ready? && SelectMove(env.blueprint, c.nodes).RunSlot?
    && (var at := SelectMove(env.blueprint, c.nodes).at; LeafAt(c.nodes, at) && GetLeaf(c.nodes, at).state.Running?)
  }

  /** What a process that dies here leaves unanswered: its open attempt, as if it had returned interrupted. */
  function Missed(env: Env, c: Core): seq<Reply>
    requires Sound(env, c)
  {
    if InCall(env, c) then
      var leaf := GetLeaf(c.nodes, SelectMove(env.blueprint, c.nodes).at);
      if leaf.attempts == [] then [] else [Reply(InterruptedResult(leaf), DecideAbort, AnswerAbort)]
    else []
  }

  function MissedCall(env: Env, c: Core): seq<Execution>
    requires Sound(env, c)
  {
    if InCall(env, c) then
      var move := SelectMove(env.blueprint, c.nodes);
      if GetLeaf(c.nodes, move.at).attempts == [] then [] else [ExecutionOf(c.nodes, move.at, move.step)]
    else []
  }

  lemma RecoveredFrontier(env: Env, nodes: seq<Node>, k: nat, at: Target, step: StepDef)
    requires LiveTree(env, nodes, k) && AtFrontier(env, nodes, k, at, step) && LeafAt(nodes, at)
    ensures Recover(nodes) == SetLeaf(nodes, at, RecoverLeaf(GetLeaf(nodes, at)))
  {
    hide LoopHead, ClosedIteration, DoneNode;
    RecoveredTree(env, nodes, k);
    if at.Body? {
      var loop := env.blueprint[k].loop;
      RecoveredRunning(env, loop, nodes[k], at.index);
      RecoveredBody(loop.body, Last(nodes[k].iterations).steps, at.index);
    }
  }

  lemma RecoveredElsewhere(env: Env, nodes: seq<Node>, k: nat)
    requires LiveTree(env, nodes, k)
    requires forall at, step :: AtFrontier(env, nodes, k, at, step) && LeafAt(nodes, at) ==>
               !GetLeaf(nodes, at).state.Running?
    ensures Recover(nodes) == nodes
  {
    hide LoopHead, ClosedIteration, DoneNode;
    RecoveredTree(env, nodes, k);
    if k < |nodes| {
      var d := env.blueprint[k];
      if d.StepItem? {
        assert AtFrontier(env, nodes, k, Top(k), d.step);
      } else if nodes[k] == PlanNode(d) {
        RecoveredPlan(d);
      } else if LoopClosed(env, d.loop, nodes[k]) {
        RecoveredClosed(env, d.loop, nodes[k]);
      } else {
        RecoveredIdle(env, d.loop, nodes, k);
      }
    }
  }

  lemma RecoveredIdle(env: Env, loop: LoopDef, nodes: seq<Node>, k: nat)
    requires k < |nodes| && |nodes| == |env.blueprint| && env.blueprint[k] == LoopItem(loop)
    requires exists j :: 0 <= j <= |loop.body| && LoopRunningAt(env, loop, nodes[k], j)
    requires forall at, step :: AtFrontier(env, nodes, k, at, step) && LeafAt(nodes, at) ==>
               !GetLeaf(nodes, at).state.Running?
    ensures RecoverNode(nodes[k]) == nodes[k]
  {
    hide LoopHead, ClosedIteration;
    var n := nodes[k];
    var j :| 0 <= j <= |loop.body| && LoopRunningAt(env, loop, n, j);
    RecoveredRunning(env, loop, n, j);
    RecoveredBody(loop.body, Last(n.iterations).steps, j);
    if j < |loop.body| {
      assert AtFrontier(env, nodes, k, Body(k, j), loop.body[j]);
      assert Last(n.iterations).steps[j := Last(n.iterations).steps[j]] == Last(n.iterations).steps;
    }
    assert RecoverIteration(Last(n.iterations)) == Last(n.iterations);
    assert WithLast(n.iterations, Last(n.iterations)) == n.iterations;
  }

  /** What a restarted process does first. */
  lemma NextLoaded(env: Env, nodes: seq<Node>, rs: seq<Reply>)
    requires Runnable(env.blueprint, nodes)
    ensures Next(env, Loaded(nodes, rs)) == Core(Recover(nodes), Ready, rs, [], false)
  {
    hide ApplyMove;
  }

  lemma NextIsSlot(env: Env, c: Core, at: Target, step: StepDef)
    requires Sound(env, c) && c.control.Ready? && SelectMove(env.blueprint, c.nodes) == RunSlot(at, step)
    requires LeafAt(c.nodes, at) && RunnableLeaf(GetLeaf(c.nodes, at)) && !Terminal(GetLeaf(c.nodes, at).state)
    ensures Next(env, c) == AdvanceSlot(env, c, at, step).core
  {
    hide AdvanceSlot, Runnable, SelectMove;
  }

  lemma NextGates(env: Env, c: Core, at: Target, step: StepDef)
    requires Sound(env, c) && c.control.Ready? && SelectMove(env.blueprint, c.nodes) == RunSlot(at, step)
    requires LeafAt(c.nodes, at) && GetLeaf(c.nodes, at).state.Paused?
    ensures Next(env, c) == Gate(env, c, at, step).core
  {
    hide SelectMove, Runnable, Gate;
  }

  lemma NextCalls(env: Env, c: Core, at: Target, step: StepDef)
    requires Sound(env, c) && c.control.Ready? && SelectMove(env.blueprint, c.nodes) == RunSlot(at, step)
    requires LeafAt(c.nodes, at) && GetLeaf(c.nodes, at).state.Running? && GetLeaf(c.nodes, at).attempts != []
    ensures Next(env, c) == RunAttempt(env, c, at, step).core
  {
    hide SelectMove, Runnable, RunAttempt;
  }

  /** Recording an interrupted result is what recovery does, apart from what was executed. */
  lemma InterruptedIsRecovered(env: Env, c: Core, at: Target, step: StepDef, rs: seq<Reply>, reply: Reply)
    requires LeafAt(c.nodes, at) && OpenAttempt(GetLeaf(c.nodes, at)) && c.control.Ready? && !c.hasError
    requires reply.Reply? && reply.result == InterruptedResult(GetLeaf(c.nodes, at))
    ensures var nodes1 := SetLeaf(c.nodes, at, RecoverLeaf(GetLeaf(c.nodes, at)));
            var x := ExecutionOf(c.nodes, at, step);
            RunAttempt(env, Having(Given(c, [reply] + rs), []), at, step).core
            == Having(Gate(env, Core(nodes1, Ready, rs, [], false), at, step).core, [x])
  {
    hide Settle, Gate, SetLeaf, Outcomes, Numbered;
    var leaf := GetLeaf(c.nodes, at);
    var x := ExecutionOf(c.nodes, at, step);
    var c1 := Core(c.nodes, Ready, rs, [x], false);
    assert ([reply] + rs)[1..] == rs && [] + [x] == [x];
    assert RecordResult(leaf, reply.result).(state := Paused) == RecoverLeaf(leaf);
    SettleFailed(env, c1, at, step, reply.result);
    var b := Core(SetLeaf(c.nodes, at, RecoverLeaf(leaf)), Ready, rs, [], false);
    GateBlind(env, b, at, step, rs, [x]);
    assert c1.(nodes := b.nodes) == Having(Given(b, rs), [x]);
    assert RunAttempt(env, Having(Given(c, [reply] + rs), []), at, step) == Settle(env, c1, at, step, reply.result);
    GateReplies(env, b, at, step);
  }

  lemma FinalUnfolds(env: Env, c: Core)
    requires Sound(env, c)
    ensures Final(env, c) == Final(env, Next(env, c))
  {
    hide Runnable, Propose;
    if c.control.Halted? { HaltedStays(env, c); }
  }

  /** A process that dies in the middle of an attempt. */
  lemma CrashInCall(env: Env, c: Core, k: nat, rs: seq<Reply>)
    requires Resolvable(env.blueprint) && AtWork(env, c, k) && Sound(env, c) && InCall(env, c)
    ensures Sound(env, Loaded(c.nodes, rs)) && Sound(env, Having(Given(c, Missed(env, c) + rs), []))
    ensures Final(env, Having(Given(c, Missed(env, c) + rs), []))
         == Having(Final(env, Loaded(c.nodes, rs)), MissedCall(env, c) + Final(env, Loaded(c.nodes, rs)).executed)
  {
    hide Runnable, Next, Propose, Gate, RunAttempt, LiveTree, AtFrontier, Final, SelectMove, SetLeaf, Outcomes;
    var move := SelectMove(env.blueprint, c.nodes);
    var at, step := move.at, move.step;
    var leaf := GetLeaf(c.nodes, at);
    SlotAtFrontier(env, c.nodes, k, at, step);
    FrontierLeaf(env, c.nodes, k, at, step);
    var reply := Missed(env, c)[0];
    var x := ExecutionOf(c.nodes, at, step);
    var nodes1 := SetLeaf(c.nodes, at, RecoverLeaf(leaf));
    RecoveredFrontier(env, c.nodes, k, at, step);
    var a := Having(Given(c, Missed(env, c) + rs), []);
    var b := Loaded(c.nodes, rs);
    var b1 := Core(nodes1, Ready, rs, [], false);
    SelectStable(env.blueprint, c.nodes, at, step, RecoverLeaf(leaf));
    NextLoaded(env, c.nodes, rs);
    NextGates(env, b1, at, step);
    NextCalls(env, a, at, step);
    InterruptedIsRecovered(env, c, at, step, rs, reply);
    var b2 := Next(env, b1);
    FinalUnfolds(env, a);
    FinalUnfolds(env, b);
    FinalUnfolds(env, b1);
    GateBlind(env, b1, at, step, rs, []);
    assert b2.executed == [];
    FinalHaving(env, b2, [x]);
    assert Final(env, b2).executed[0..] == Final(env, b2).executed;
  }

  /** A process that dies elsewhere before it has halted or failed: restarting reaches the very core it stood at. */
  lemma CrashOutsideCall(env: Env, c: Core, k: nat, rs: seq<Reply>)
    requires Resolvable(env.blueprint) && AtWork(env, c, k) && Sound(env, c) && !InCall(env, c)
    requires c.control.Starting? || c.control.Ready? || c.control.Prompting?
    ensures Sound(env, Loaded(c.nodes, rs)) && Sound(env, Having(Given(c, rs), []))
    ensures Final(env, Having(Given(c, rs), [])) == Final(env, Loaded(c.nodes, rs))
  {
    hide Runnable, Next, Propose, Final, LiveTree;
    if !c.control.Starting? {
      NotRunningAnywhere(env, c, k);
      RecoveredElsewhere(env, c.nodes, k);
      NextLoaded(env, c.nodes, rs);
      FinalUnfolds(env, Loaded(c.nodes, rs));
      if c.control.Prompting? {
        ReturnsToPrompt(env, c, k, rs);
        FinalUnfolds(env, Core(c.nodes, Ready, rs, [], false));
      }
    }
  }

  lemma NotRunningAnywhere(env: Env, c: Core, k: nat)
    requires Resolvable(env.blueprint) && AtWork(env, c, k) && Sound(env, c) && !InCall(env, c)
    requires c.control.Ready? || c.control.Prompting?
    ensures LiveTree(env, c.nodes, k)
    ensures forall at, step :: AtFrontier(env, c.nodes, k, at, step) && LeafAt(c.nodes, at) ==>
              !GetLeaf(c.nodes, at).state.Running?
  {
    hide Runnable, LiveTree;
    forall at, step | AtFrontier(env, c.nodes, k, at, step) && LeafAt(c.nodes, at)
      ensures !GetLeaf(c.nodes, at).state.Running?
    {
      FrontierIsSlot(env, c.nodes, k, at, step);
      if c.control.Prompting? {
        var p :| PromptOpen(env, c.nodes, k, c.control.at, p);
        FrontierIsSlot(env, c.nodes, k, c.control.at, p);
      }
    }
  }

  /** With its prompt's leaf stored paused, a restarted process asks again at the same place. */
  lemma ReturnsToPrompt(env: Env, c: Core, k: nat, rs: seq<Reply>)
    requires Resolvable(env.blueprint) && AtWork(env, c, k) && Sound(env, c) && c.control.Prompting?
    ensures Sound(env, Core(c.nodes, Ready, rs, [], false))
    ensures Next(env, Core(c.nodes, Ready, rs, [], false)) == Having(Given(c, rs), [])
  {
    hide Runnable, LiveTree, Next, SelectMove, Propose;
    var at := c.control.at;
    var step :| PromptOpen(env, c.nodes, k, at, step);
    FrontierIsSlot(env, c.nodes, k, at, step);
    NextGates(env, Core(c.nodes, Ready, rs, [], false), at, step);
    SetLeafSame(c.nodes, at);
    assert GetLeaf(c.nodes, at).(state := Paused) == GetLeaf(c.nodes, at);
  }

  lemma CrashContinues(env: Env, c: Core, k: nat, rs: seq<Reply>)
    requires Resolvable(env.blueprint) && AtWork(env, c, k) && Sound(env, c)
    requires c.control.Starting? || c.control.Ready? || c.control.Prompting?
    ensures Sound(env, Loaded(c.nodes, rs)) && Sound(env, Having(Given(c, Missed(env, c) + rs), []))
    ensures Final(env, Having(Given(c, Missed(env, c) + rs), []))
         == Having(Final(env, Loaded(c.nodes, rs)), MissedCall(env, c) + Final(env, Loaded(c.nodes, rs)).executed)
  {
    hide Runnable, Next, Propose, Final, LiveTree;
    if InCall(env, c) {
      CrashInCall(env, c, k, rs);
    } else {
      CrashOutsideCall(env, c, k, rs);
      assert [] + rs == rs && [] + Final(env, Loaded(c.nodes, rs)).executed == Final(env, Loaded(c.nodes, rs)).executed;
    }
  }

  // ---- any number of crashes ----

  /** A process that is given these replies and dies after so many steps. */
  datatype Life = Life(replies: seq<Reply>, steps: nat)

  ghost predicate Drivable(env: Env, nodes: seq<Node>) {
    Resolvable(env.blueprint) && exists k :: LiveTree(env, nodes, k)
  }

  lemma DrivableSound(env: Env, nodes: seq<Node>, rs: seq<Reply>) returns (k: nat)
    requires Drivable(env, nodes)
    ensures LiveTree(env, nodes, k) && AtWork(env, Loaded(nodes, rs), k) && Sound(env, Loaded(nodes, rs))
  {
    k :| LiveTree(env, nodes, k);
    AtWorkSound(env, Loaded(nodes, rs), k);
  }

  lemma LoadedSound(env: Env, nodes: seq<Node>, rs: seq<Reply>)
    requires Drivable(env, nodes)
    ensures Sound(env, Loaded(nodes, rs))
  {
    var _ := DrivableSound(env, nodes, rs);
  }

  /** Where a process stands when it dies. */
  ghost function DeathOf(env: Env, nodes: seq<Node>, life: Life): Core
    requires Drivable(env, nodes)
  {
    LoadedSound(env, nodes, life.replies);
    Steps(env, Loaded(nodes, life.replies), life.steps)
  }

  /** Each process starts from the tree the one before it left, and dies before halting or failing. */
  ghost predicate Crashes(env: Env, nodes: seq<Node>, lives: seq<Life>)
    decreases |lives|
  {
    Drivable(env, nodes) &&
    (lives != [] ==>
      var c := DeathOf(env, nodes, lives[0]);
      (c.control.Starting? || c.control.Ready? || c.control.Prompting?) && Crashes(env, c.nodes, lives[1..]))
  }

  /** The stored tree after all of them. */
  ghost function TreeAfter(env: Env, nodes: seq<Node>, lives: seq<Life>): seq<Node>
    requires Crashes(env, nodes, lives)
    decreases |lives|
  {
    if lives == [] then nodes else TreeAfter(env, DeathOf(env, nodes, lives[0]).nodes, lives[1..])
  }

  lemma DeathSound(env: Env, nodes: seq<Node>, life: Life) returns (k: nat)
    requires Drivable(env, nodes)
    ensures Sound(env, DeathOf(env, nodes, life)) && AtWork(env, DeathOf(env, nodes, life), k)
  {
    hide AtWork, Next;
    var k0 := DrivableSound(env, nodes, life.replies);
    k := StepsKeep(env, Loaded(nodes, life.replies), k0, life.steps);
  }

  lemma DeathIsSound(env: Env, nodes: seq<Node>, life: Life)
    requires Drivable(env, nodes)
    ensures Sound(env, DeathOf(env, nodes, life))
  {
    var _ := DeathSound(env, nodes, life);
  }

  /** The replies of one crash-free run: what each process read, then its open attempt answered as interrupted. */
  ghost function Spliced(env: Env, nodes: seq<Node>, lives: seq<Life>, last: seq<Reply>): seq<Reply>
    requires Crashes(env, nodes, lives)
    decreases |lives|
  {
    if lives == [] then last
    else
      var c := DeathOf(env, nodes, lives[0]);
      DeathIsSound(env, nodes, lives[0]);
      var read := |lives[0].replies| - |c.replies|;
      (if 0 <= read then lives[0].replies[..read] else []) + Missed(env, c) + Spliced(env, c.nodes, lives[1..], last)
  }

  /** What the dead processes executed, calls in flight included. */
  ghost function ExecutedBefore(env: Env, nodes: seq<Node>, lives: seq<Life>): seq<Execution>
    requires Crashes(env, nodes, lives)
    decreases |lives|
  {
    if lives == [] then []
    else
      var c := DeathOf(env, nodes, lives[0]);
      DeathIsSound(env, nodes, lives[0]);
      c.executed + MissedCall(env, c) + ExecutedBefore(env, c.nodes, lives[1..])
  }

  /** Crash refinement: however often processes die between commits, the last one ends with the tree, the outcome
      and, all processes taken together, the executions of one crash-free run in which every attempt open at a
      crash returned the interrupted result. */
  lemma {:induction false} CrashesRefine(env: Env, nodes: seq<Node>, lives: seq<Life>, last: seq<Reply>)
    requires Crashes(env, nodes, lives)
    ensures Sound(env, Loaded(nodes, Spliced(env, nodes, lives, last)))
    ensures Sound(env, Loaded(TreeAfter(env, nodes, lives), last))
    ensures var crashFree := Final(env, Loaded(nodes, Spliced(env, nodes, lives, last)));
            var resumed := Final(env, Loaded(TreeAfter(env, nodes, lives), last));
            crashFree == Having(resumed, ExecutedBefore(env, nodes, lives) + resumed.executed)
    decreases |lives|
  {
    hide Next, Final, AtWork, Steps, Sound, Missed, MissedCall, DeathOf, Drivable;
    LoadedSound(env, nodes, Spliced(env, nodes, lives, last));
    if lives == [] {
      var resumed := Final(env, Loaded(nodes, last));
      assert [] + resumed.executed == resumed.executed;
    } else {
      var c := DeathOf(env, nodes, lives[0]);
      var tail := Spliced(env, c.nodes, lives[1..], last);
      CrashesRefine(env, c.nodes, lives[1..], last);
      OneCrash(env, nodes, lives[0], tail);
      var resumed := Final(env, Loaded(TreeAfter(env, nodes, lives), last));
      var rest := ExecutedBefore(env, c.nodes, lives[1..]);
      assert c.executed + MissedCall(env, c) + (rest + resumed.executed)
          == c.executed + MissedCall(env, c) + rest + resumed.executed;
    }
  }

  lemma OneCrash(env: Env, nodes: seq<Node>, life: Life, tail: seq<Reply>)
    requires Drivable(env, nodes)
    requires var c := DeathOf(env, nodes, life); c.control.Starting? || c.control.Ready? || c.control.Prompting?
    ensures var c := DeathOf(env, nodes, life); var read := |life.replies| - |c.replies|;
            && 0 <= read && Sound(env, c) && Sound(env, Loaded(c.nodes, tail))
            && Sound(env, Loaded(nodes, life.replies[..read] + Missed(env, c) + tail))
            && Final(env, Loaded(nodes, life.replies[..read] + Missed(env, c) + tail))
               == Having(Final(env, Loaded(c.nodes, tail)),
                         c.executed + MissedCall(env, c) + Final(env, Loaded(c.nodes, tail)).executed)
  {
    hide Next, Final, AtWork, Steps, Runnable, InCall, Missed, MissedCall;
    var c := DeathOf(env, nodes, life);
    var _ := DrivableSound(env, nodes, life.replies);
    var k := DeathSound(env, nodes, life);
    var start := Loaded(nodes, life.replies);
    var more := Missed(env, c) + tail;
    var u := StepsSame(env, start, life.steps, more, []);
    var spliced := Loaded(nodes, life.replies[..u] + more);
    assert Having(Given(start, life.replies[..u] + more), []) == spliced;
    assert life.replies[..u] + more == life.replies[..u] + Missed(env, c) + tail;
    StepsSameFinal(env, spliced, life.steps);
    assert [] + c.executed[0..] == c.executed;
    CrashContinues(env, c, k, tail);
    var d := Having(Given(c, more), []);
    FinalHaving(env, d, c.executed);
    assert Having(d, c.executed) == Given(c, more) == Having(Given(c, more), c.executed);
    var resumed := Final(env, Loaded(c.nodes, tail));
    assert c.executed + (MissedCall(env, c) + resumed.executed) == c.executed + MissedCall(env, c) + resumed.executed;
    assert Final(env, d).executed[0..] == Final(env, d).executed;
  }

  // ---- pauses ----

  /** Pause transparency: interrupting an open prompt ends the run PAUSED with nothing changed, and resuming with the
      same later answers executes the same attempts and ends the same as answering at once. */
  lemma PauseIsTransparent(env: Env, c: Core, k: nat, later: seq<Reply>)
    requires Resolvable(env.blueprint) && AtWork(env, c, k) && Sound(env, c) && c.control.Prompting?
    ensures Next(env, Given(c, [Interrupt]))
          == c.(control := Halted(Returned(RunPaused)), replies := [], hasError := true)
    ensures Sound(env, Loaded(c.nodes, later))
    ensures var resumed := Final(env, Loaded(c.nodes, later));
            Final(env, Given(c, later)) == Having(resumed, c.executed + resumed.executed)
  {
    assert Next(env, Given(c, [Interrupt]))
          == c.(control := Halted(Returned(RunPaused)), replies := [], hasError := true) by {
      hide ApplyMove, Runnable;
    }
    hide Next, Runnable, Final;
    CrashOutsideCall(env, c, k, later);
    var d := Having(Given(c, later), []);
    FinalHaving(env, d, c.executed);
    assert Having(d, c.executed) == Given(c, later);
    assert Final(env, d).executed[0..] == Final(env, d).executed;
  }
}
