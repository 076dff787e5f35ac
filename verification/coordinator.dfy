/** RunCoordinator as it is written: methods that update the tree in place inside loops (coordinator.py). Each
    is proved to make only ticks of the machine in module Rows, so what is proved of runs is proved of it. */
module Coordinator {
  import opened StateModels
  import opened FailureRules
  import opened LoopPolicy
  import opened Projection
  import opened Transitions
  import opened Rows
  import opened Soundness
  import opened Refinement
  import opened StateStore

  /** NodeTransitionKind, and the two ways a call does not return one. */
  datatype Transition = NodeCompleted | NodeContinued | NodeFailed | NodePaused | NodeRetry | Raised | Died

  /** What an external call does: return a reply, raise KeyboardInterrupt, or never return. */
  datatype Answer = Replied(reply: Reply) | Interrupted | NoAnswer

  function AnswerOf(replies: seq<Reply>): Answer {
    if replies == [] then NoAnswer
    else if replies[0].Interrupt? then Interrupted
    else Replied(replies[0])
  }

  /** Everything the coordinator calls but cannot see into: step execution and the prompter. */
  class Outside {
    var replies: seq<Reply>
    var executed: seq<Execution>

    constructor (replies: seq<Reply>)
      ensures this.replies == replies && executed == []
    {
      this.replies := replies;
      executed := [];
    }

    method RunAttempt(e: Execution) returns (a: Answer)
      modifies this
      ensures executed == old(executed) + [e] && replies == Rest(old(replies)) && a == AnswerOf(old(replies))
    {
      executed := executed + [e];
      a := Ask();
    }

    method Ask() returns (a: Answer)
      modifies `replies
      ensures replies == Rest(old(replies)) && a == AnswerOf(old(replies))
    {
      a := AnswerOf(replies);
      replies := Rest(replies);
    }
  }

  /** Where a finished slot leaves the coordinator. */
  function ControlOf(t: Transition, at: Target): Control {
    match t
    case NodeFailed => FailedAt(at)
    case NodePaused => Halted(Returned(RunPaused))
    case Died => Halted(Killed)
    case _ => Ready
  }

  /** Where a finished node leaves it. */
  function NodeControl(t: Transition): Control {
    ControlOf(t, Top(0))
  }

  /** Only the leaf at this place may differ between a and b. */
  predicate SlotFrame(a: seq<Node>, b: seq<Node>, at: Target) {
    && |a| == |b| && LeafAt(b, at)
    && (forall i :: 0 <= i < |a| && i != at.pos ==> b[i] == a[i])
    && (at.Body? ==> a[at.pos].LoopNode? && b[at.pos].id == a[at.pos].id && b[at.pos].state == a[at.pos].state)
  }

  /** Only the loop at pos may differ between a and b, and it is the same loop. */
  predicate LoopFrame(a: seq<Node>, b: seq<Node>, pos: nat) {
    && |a| == |b| && LoopAt(a, pos) && LoopAt(b, pos) && b[pos].id == a[pos].id
    && (forall i :: 0 <= i < |a| && i != pos ==> b[i] == a[i])
  }

  /** The loop at pos is the node the coordinator is at, and it has been begun. */
  predicate InLoop(defs: seq<Definition>, nodes: seq<Node>, pos: nat, def: LoopDef) {
    && LoopAt(nodes, pos) && !nodes[pos].state.Pending? && !Terminal(nodes[pos].state)
    && (forall i :: 0 <= i < pos ==> Terminal(NodeStateOf(nodes[i])))
    && FindsBody(defs, nodes[pos].id, def.body)
  }

  function CancelEffect(c: Core, at: Target): Effect
    requires LeafAt(c.nodes, at) || (at.Top? && LoopAt(c.nodes, at.pos))
  {
    if LeafAt(c.nodes, at) then CancelLeaf(c, at) else CancelLoop(c, at.pos)
  }

  predicate InFlightFits(nodes: seq<Node>, at: Option<Target>) {
    at.Some? && (LeafAt(nodes, at.value) || (at.value.Top? && LoopAt(nodes, at.value.pos)))
  }

  /** b is reached from a by at least one tick. */
  ghost predicate Advances(env: Env, a: Machine, b: Machine) {
    Sound(env, a.core) && !a.core.control.Halted? && Reaches(env, Tick(env, a), b)
  }

  lemma TickAdvances(env: Env, a: Machine)
    requires Sound(env, a.core) && !a.core.control.Halted?
    ensures Advances(env, a, Tick(env, a)) && Sound(env, Tick(env, a).core)
  {
    hide Tick;
    TickSound(env, a);
    ReachesTick(env, Tick(env, a));
  }

  lemma AdvancesTrans(env: Env, a: Machine, b: Machine, c: Machine)
    requires Advances(env, a, b) && Reaches(env, b, c)
    ensures Advances(env, a, c)
  {
    hide Tick;
    ReachesTrans(env, Tick(env, a), b, c);
  }

  lemma AdvancesReaches(env: Env, a: Machine, b: Machine)
    requires Advances(env, a, b)
    ensures Reaches(env, a, b) && Sound(env, b.core)
  {
    hide Tick;
    ReachesTick(env, a);
    ReachesTrans(env, a, Tick(env, a), b);
    var n: nat :| Ticks(env, a, n) == b;
  }

  lemma BelowTrans(a: Core, b: Core, c: Core)
    requires Below(a, b) && (b == c || Below(b, c))
    ensures Below(a, c)
  {
  }

  lemma {:induction false} TicksBelow(env: Env, m: Machine, n: nat)
    requires Sound(env, m.core)
    ensures Ticks(env, m, n) == m || Below(Ticks(env, m, n).core, m.core)
    decreases n
  {
    hide Tick, Below;
    TickSound(env, m);
    if n > 0 {
      TicksBelow(env, Tick(env, m), n - 1);
      if m.core.control.Halted? {
        HaltedTick(env, m);
      } else {
        TickLowers(env, m);
        if Ticks(env, m, n) != Tick(env, m) { BelowTrans(Ticks(env, m, n).core, Tick(env, m).core, m.core); }
      }
    }
  }

  lemma HaltedTick(env: Env, m: Machine)
    requires Sound(env, m.core) && m.core.control.Halted?
    ensures Tick(env, m) == m
  {
    hide ApplyMove;
  }

  /** Advancing lowers the measure. */
  lemma AdvancesBelow(env: Env, a: Machine, b: Machine)
    requires Advances(env, a, b)
    ensures Below(b.core, a.core)
  {
    hide Tick, Below;
    TickSound(env, a);
    TickLowers(env, a);
    var n: nat :| Ticks(env, Tick(env, a), n) == b;
    TicksBelow(env, Tick(env, a), n);
    if b != Tick(env, a) { BelowTrans(b.core, Tick(env, a).core, a.core); }
  }

  class RunCoordinator {
    const env: Env
    const store: RunStateStore
    const outside: Outside

    var nodes: seq<Node>
    var revision: nat
    var hasError: bool
    var inFlight: Option<Target>

    /** The machine this coordinator is, standing at the given control. */
    ghost function Now(control: Control): Machine
      reads this, store, outside
    {
      Machine(Core(nodes, control, outside.replies, outside.executed, hasError), revision, store.row, store.intrusions)
    }

    predicate Valid()
      reads this
    {
      Runnable(env.blueprint, nodes)
    }

    constructor (env: Env, store: RunStateStore, outside: Outside, nodes: seq<Node>, revision: nat)
      requires Runnable(env.blueprint, nodes)
      ensures this.env == env && this.store == store && this.outside == outside
      ensures this.nodes == nodes && this.revision == revision && !hasError && inFlight == None && Valid()
    {
      this.env := env;
      this.store := store;
      this.outside := outside;
      this.nodes := nodes;
      this.revision := revision;
      hasError := false;
      inFlight := None;
    }

    /** _commit: save the tree in memory at revision + 1. */
    method Commit(status: Option<RunStatus>) returns (ok: bool)
      modifies store, `revision, `hasError
      ensures old(store.Consistent()) ==> store.Consistent()
      ensures nodes == old(nodes) && store.intrusions == Rest(old(store.intrusions))
      ensures ok == Accepts(Disturb(old(store.row), old(store.intrusions)), old(revision))
      ensures ok ==> revision == old(revision) + 1 && hasError == old(hasError)
      ensures ok ==> store.row == Written(Disturb(old(store.row), old(store.intrusions)), old(revision), nodes, status)
      ensures !ok ==> revision == old(revision) && hasError
      ensures !ok ==> store.row == Disturb(old(store.row), old(store.intrusions))
    {
      ok := store.Save(nodes, revision, status);
      if ok {
        revision := revision + 1;
      } else {
        hasError := true;
      }
    }

    // ---- leaves ----

    /** _begin_attempt. */
    method BeginAttempt(at: Target, number: nat, status: Option<RunStatus>) returns (ok: bool)
      requires LeafAt(nodes, at)
      modifies this, store
      ensures old(store.Consistent()) ==> store.Consistent()
      ensures SlotFrame(old(nodes), nodes, at)
      ensures inFlight == old(inFlight)
      ensures Now(if ok then Ready else FailedAt(at))
           == Apply(old(Now(Ready)), Transitions.BeginAttempt(old(Now(Ready)).core, at, number, status))
    {
      var leaf := GetLeaf(nodes, at);
      nodes := SetLeaf(nodes, at, leaf.(attempts := leaf.attempts + [Attempt(number, None)], state := Running));
      ok := Commit(status);
    }

    /** _finish_leaf with the result to record; a step that succeeded records the result it already has. */
    method FinishLeaf(at: Target, state: NodeState, result: StepResult, status: Option<RunStatus>) returns (ok: bool)
      requires LeafAt(nodes, at) && GetLeaf(nodes, at).attempts != []
      modifies this, store
      ensures old(store.Consistent()) ==> store.Consistent()
      ensures SlotFrame(old(nodes), nodes, at)
      ensures inFlight == old(inFlight)
      ensures Now(if ok then Ready else FailedAt(at))
           == Apply(old(Now(Ready)), SettleLeaf(old(Now(Ready)).core, at, state, result, status))
    {
      hide Sound;
      var leaf := GetLeaf(nodes, at);
      var attempts := WithLast(leaf.attempts, Last(leaf.attempts).(result := Some(result)));
      nodes := SetLeaf(nodes, at, leaf.(attempts := attempts, state := state));
      ok := Commit(status);
    }

    /** _abort_leaf: the outcome of the commit does not matter, the slot has failed. */
    method AbortLeaf(at: Target, status: Option<RunStatus>) returns (t: Transition)
      requires LeafAt(nodes, at)
      modifies this, store
      ensures old(store.Consistent()) ==> store.Consistent()
      ensures SlotFrame(old(nodes), nodes, at)
      ensures inFlight == old(inFlight) && t == NodeFailed
      ensures Now(FailedAt(at)) == Apply(old(Now(Ready)), FailLeaf(old(Now(Ready)).core, at, status))
    {
      hasError := true;
      nodes := SetLeaf(nodes, at, GetLeaf(nodes, at).(state := Failed));
      var _ := Commit(status);
      t := NodeFailed;
    }

    /** _apply_action. */
    method ApplyAction(at: Target, action: StepAction, result: StepResult, status: Option<RunStatus>)
      returns (t: Transition)
      requires LeafAt(nodes, at) && GetLeaf(nodes, at).attempts != []
      modifies this, store
      ensures old(store.Consistent()) ==> store.Consistent()
      ensures SlotFrame(old(nodes), nodes, at)
      ensures inFlight == old(inFlight) && t != Raised && t != Died
      ensures Now(ControlOf(t, at))
           == Apply(old(Now(Ready)), Transitions.ApplyAction(old(Now(Ready)).core, at, action, result, status))
    {
      hide SetLeaf, Transitions.BeginAttempt, SettleLeaf, FailLeaf, Apply, SlotFrame;
      match action
      case ActRetry =>
        var ok := BeginAttempt(at, Last(GetLeaf(nodes, at).attempts).number + 1, Some(RunRunning));
        t := if ok then NodeRetry else NodeFailed;
      case ActContinue =>
        var ok := FinishLeaf(at, Ignored, result, status);
        t := if ok then NodeContinued else NodeFailed;
      case ActAbort =>
        t := AbortLeaf(at, status);
    }

    /** _persist_paused. */
    method PersistPaused(at: Target) returns (ok: bool)
      requires LeafAt(nodes, at)
      modifies this, store
      ensures old(store.Consistent()) ==> store.Consistent()
      ensures SlotFrame(old(nodes), nodes, at)
      ensures inFlight == old(inFlight)
      ensures nodes == SetLeaf(old(nodes), at, GetLeaf(old(nodes), at).(state := Paused))
      ensures Now(if ok then Prompting(at) else FailedAt(at))
           == Apply(old(Now(Ready)), Effect(old(Now(Ready)).core.(nodes := nodes, control := Prompting(at)), true,
                                            Some(RunPaused), FailedAt(at)))
    {
      nodes := SetLeaf(nodes, at, GetLeaf(nodes, at).(state := Paused));
      ok := Commit(Some(RunPaused));
    }

    /** The answer to an open prompt, applied. */
    method AnswerPrompt(at: Target, result: StepResult) returns (t: Transition)
      requires Valid() && LeafAt(nodes, at) && GetLeaf(nodes, at).attempts != []
      requires Last(GetLeaf(nodes, at).attempts).result == Some(result)
      modifies this, store, outside`replies
      ensures old(store.Consistent()) ==> store.Consistent()
      ensures SlotFrame(old(nodes), nodes, at)
      ensures inFlight == old(inFlight) && t != Raised
      ensures old(Sound(env, Now(Prompting(at)).core)) && Now(ControlOf(t, at)) == Tick(env, old(Now(Prompting(at))))
    {
      hide Tick, Runnable, Transitions.ApplyAction, Apply;
      ghost var m := Now(Prompting(at));
      PromptTick(env, m, at, result);
      var a := outside.Ask();
      match a
      case NoAnswer => t := Died;
      case Interrupted =>
        hasError := true;
        t := NodePaused;
      case Replied(reply) =>
        var (action, recorded) := ApplyPromptDecision(reply.step, result);
        t := ApplyAction(at, action, recorded, Some(RunRunning));
    }

    /** _prompt_failed_leaf: commit PAUSED and ask; where nobody can be asked the step is aborted. */
    method PromptFailedLeaf(at: Target, step: StepDef, result: StepResult) returns (t: Transition)
      requires Valid() && LeafAt(nodes, at) && Asks(step.onFailure)
      requires GetLeaf(nodes, at).attempts != [] && Last(GetLeaf(nodes, at).attempts).result == Some(result)
      modifies this, store, outside`replies
      ensures old(store.Consistent()) ==> store.Consistent()
      ensures SlotFrame(old(nodes), nodes, at)
      ensures inFlight == old(inFlight) && t != Raised
      ensures Reaches(env, Apply(old(Now(Ready)), Gate(env, old(Now(Ready)).core, at, step)), Now(ControlOf(t, at)))
    {
      hide Tick, Runnable, Reaches, SetLeaf, SlotFrame, Apply, Gate, FailLeaf, SoundAfter;
      ghost var m := Now(Ready);
      GateSound(env, m.core, at, step);
      AppliedReaches(env, m, Gate(env, m.core, at, step));
      RunnableSetLeaf(env.blueprint, nodes, at, GetLeaf(nodes, at).(state := Paused));
      GatePrompts(env, m.core, at, step, result);
      ghost var before := nodes;
      if !env.Interactive() {
        t := AbortLeaf(at, None);
        return;
      }
      var ok := PersistPaused(at);
      if !ok {
        return NodeFailed;
      }
      ghost var paused := nodes;
      ReachesTick(env, Now(Prompting(at)));
      t := AnswerPrompt(at, result);
      SlotFrameTrans(before, paused, nodes, at);
    }

    /** _resolve_failed_leaf: the gate, with the prompt it may open. */
    method ResolveFailedLeaf(at: Target, step: StepDef) returns (t: Transition)
      requires Valid() && LeafAt(nodes, at)
      modifies this, store, outside`replies
      ensures old(store.Consistent()) ==> store.Consistent()
      ensures SlotFrame(old(nodes), nodes, at)
      ensures inFlight == old(inFlight) && t != Raised
      ensures Reaches(env, Apply(old(Now(Ready)), Gate(env, old(Now(Ready)).core, at, step)), Now(ControlOf(t, at)))
    {
      hide Tick, Runnable, Reaches, SetLeaf, SlotFrame, Transitions.ApplyAction, FailLeaf, Sound, SoundAfter;
      var leaf := GetLeaf(nodes, at);
      GateSound(env, Now(Ready).core, at, step);
      AppliedReaches(env, Now(Ready), Gate(env, Now(Ready).core, at, step));
      FrameRefl(nodes, at);
      if leaf.attempts == [] || Last(leaf.attempts).result.None? {
        hasError := true;
        return NodeFailed;
      }
      var result := Last(leaf.attempts).result.value;
      var policy := EffectivePolicy(step.onFailure);
      if policy.PromptUser? {
        t := PromptFailedLeaf(at, step, result);
      } else {
        var (action, recorded) := ResolveTerminalAction(policy, result);
        t := ApplyAction(at, action, recorded, None);
      }
    }

    /** _settle_attempt. */
    method SettleAttempt(at: Target, step: StepDef, result: StepResult) returns (t: Transition)
      requires Valid() && LeafAt(nodes, at) && GetLeaf(nodes, at).attempts != []
      modifies this, store, outside`replies
      ensures old(store.Consistent()) ==> store.Consistent()
      ensures SlotFrame(old(nodes), nodes, at)
      ensures inFlight == old(inFlight) && t != Raised
      ensures Reaches(env, Apply(old(Now(Ready)), Settle(env, old(Now(Ready)).core, at, step, result)),
                      Now(ControlOf(t, at)))
    {
      hide Gate, SettleLeaf, Settle, Reaches, Tick, RecordResult, Apply, SoundAfter, Runnable, SetLeaf, SlotFrame;
      SettleUnfolds(env, Now(Ready).core, at, step, result);
      SettleSound(env, Now(Ready).core, at, step, result);
      var leaf := RecordResult(GetLeaf(nodes, at), result);
      RunnableSetLeaf(env.blueprint, nodes, at, leaf);
      SetLeafFrame(nodes, at, leaf);
      ghost var before := nodes;
      ghost var m := Now(Ready);
      nodes := SetLeaf(nodes, at, leaf);
      ApplyIgnoresCore(m, Now(Ready).core, Settle(env, m.core, at, step, result));
      if !result.Ok() {
        ghost var recorded := nodes;
        t := ResolveFailedLeaf(at, step);
        SlotFrameTrans(before, recorded, nodes, at);
      } else {
        var state := if result.status.ResultIgnored? then Ignored else Completed;
        ghost var recorded := nodes;
        AppliedReaches(env, Now(Ready), SettleLeaf(Now(Ready).core, at, state, result, None));
        var ok := FinishLeaf(at, state, result, None);
        SlotFrameTrans(before, recorded, nodes, at);
        t := if !ok then NodeFailed else if state.Ignored? then NodeContinued else NodeCompleted;
      }
    }

    /** _advance_slot: run or re-enter the selected leaf. When the step is interrupted, what _cancel would commit
        next is on the run. */
    method AdvanceSlot(at: Target, step: StepDef) returns (t: Transition)
      requires Valid() && SelectMove(env.blueprint, nodes) == RunSlot(at, step)
      requires inFlight == Some(at)
      modifies this, store, outside
      ensures old(store.Consistent()) ==> store.Consistent()
      ensures SlotFrame(old(nodes), nodes, at)
      ensures inFlight == old(inFlight)
      ensures t == Raised ==> InFlightFits(nodes, inFlight)
      ensures t == Raised ==> Advances(env, old(Now(Ready)), Apply(Now(Ready), CancelEffect(Now(Ready).core, at)))
      ensures t != Raised ==> Advances(env, old(Now(Ready)), Now(ControlOf(t, at)))
    {
      hide Tick, SelectMove, Runnable, Advances, Transitions.BeginAttempt, Gate, Apply, SlotFrame, SetLeaf;
      hide CancelEffect, InFlightFits;
      ghost var m := Now(Ready);
      SlotSelected(env, nodes, at, step);
      TickAdvances(env, m);
      SlotCases(env, m, at, step);
      FrameRefl(nodes, at);
      var leaf := GetLeaf(nodes, at);
      if leaf.state.Paused? {
        t := ResolveFailedLeaf(at, step);
        AdvancesTrans(env, m, Tick(env, m), Now(ControlOf(t, at)));
        return;
      }
      ghost var m1, before := m, nodes;
      if leaf.state.Pending? {
        var ok := BeginAttempt(at, 1, None);
        if !ok {
          return NodeFailed;
        }
        m1 := Now(Ready);
        BegunSlot(env, m, m1, at, step);
      }
      ghost var begun := nodes;
      t := RunOpenAttempt(at, step);
      SlotFrameTrans(before, begun, nodes, at);
      if t == Raised {
        AdvancesFrom(env, m, m1, Apply(Now(Ready), CancelEffect(Now(Ready).core, at)));
      } else {
        AdvancesFrom(env, m, m1, Now(ControlOf(t, at)));
      }
    }

    /** The part of _advance_slot that executes: call run_attempt on the open attempt and settle what it returns. */
    method RunOpenAttempt(at: Target, step: StepDef) returns (t: Transition)
      requires Valid() && SelectMove(env.blueprint, nodes) == RunSlot(at, step)
      requires LeafAt(nodes, at) && GetLeaf(nodes, at).attempts != []
      requires !Terminal(GetLeaf(nodes, at).state) && !GetLeaf(nodes, at).state.Paused?
      requires !GetLeaf(nodes, at).state.Pending?
      requires inFlight == Some(at)
      modifies this, store, outside
      ensures old(store.Consistent()) ==> store.Consistent()
      ensures SlotFrame(old(nodes), nodes, at)
      ensures inFlight == old(inFlight)
      ensures outside.executed
           == old(outside.executed)
              + [Execution(step, SpotOf(old(nodes), at), Last(GetLeaf(old(nodes), at).attempts).number,
                           Numbered(Endings(TreeLeaves(old(nodes)))))]
      ensures t == Raised ==> InFlightFits(nodes, inFlight)
      ensures t == Raised ==> Advances(env, old(Now(Ready)), Apply(Now(Ready), CancelEffect(Now(Ready).core, at)))
      ensures t != Raised ==> Advances(env, old(Now(Ready)), Now(ControlOf(t, at)))
    {
      hide Tick, SelectMove, Runnable, Advances, Settle, CancelLeaf, Apply, SlotFrame, Outcomes, Numbered, SpotOf;
      hide Endings, TreeLeaves;
      ghost var m := Now(Ready);
      TickAdvances(env, m);
      OpenTick(env, m, at, step);
      FrameRefl(nodes, at);
      OutcomesAre(nodes);
      var steps := Numbered(Outcomes(nodes));
      var a := outside.RunAttempt(Execution(step, SpotOf(nodes, at), Last(GetLeaf(nodes, at).attempts).number, steps));
      match a
      case NoAnswer => t := Died;
      case Interrupted => t := Raised;
      case Replied(reply) =>
        t := SettleAttempt(at, step, reply.result);
        AdvancesTrans(env, m, Tick(env, m), Now(ControlOf(t, at)));
    }

    // ---- loops ----

    /** _begin_iteration on the loop's last iteration. */
    method BeginIteration(pos: nat) returns (ok: bool)
      requires LoopAt(nodes, pos)
      modifies this, store
      ensures old(store.Consistent()) ==> store.Consistent()
      ensures inFlight == old(inFlight) && LoopFrame(old(nodes), nodes, pos) && nodes[pos].state.Running?
      ensures Now(if ok then Ready else Halted(Returned(RunFailed)))
           == Apply(old(Now(Ready)), OpenIteration(old(Now(Ready)).core, pos))
    {
      var loop := nodes[pos];
      var its := WithLast(loop.iterations, Last(loop.iterations).(state := Running));
      nodes := nodes[pos := loop.(iterations := its, state := Running)];
      ok := Commit(None);
    }

    /** _repeat_iteration. */
    method RepeatIteration(pos: nat, def: LoopDef, number: nat) returns (ok: bool)
      requires LoopAt(nodes, pos)
      modifies this, store
      ensures old(store.Consistent()) ==> store.Consistent()
      ensures inFlight == old(inFlight) && LoopFrame(old(nodes), nodes, pos) && nodes[pos].state.Running?
      ensures Now(if ok then Ready else Halted(Returned(RunFailed)))
           == Apply(old(Now(Ready)), Transitions.RepeatIteration(old(Now(Ready)).core, pos, def.body, number))
    {
      ghost var m := Now(Ready);
      var loop := nodes[pos];
      AppendedOpens(m.core, pos, def, number);
      hide OpenIteration, Transitions.RepeatIteration, Apply;
      nodes := nodes[pos := loop.(iterations := loop.iterations + [NewIteration(def.body, number)])];
      ApplyIgnoresCore(m, Now(Ready).core, OpenIteration(Now(Ready).core, pos));
      ok := BeginIteration(pos);
    }

    /** _complete_iteration. */
    method CompleteIteration(pos: nat) returns (ok: bool)
      requires LoopAt(nodes, pos)
      modifies this, store
      ensures old(store.Consistent()) ==> store.Consistent()
      ensures inFlight == old(inFlight) && LoopFrame(old(nodes), nodes, pos)
      ensures nodes[pos].state == old(nodes)[pos].state
      ensures Now(if ok then Ready else Halted(Returned(RunFailed)))
           == Apply(old(Now(Ready)), CloseIteration(env, old(Now(Ready)).core, pos))
    {
      var loop := nodes[pos];
      var it := Last(loop.iterations);
      var results := CollectIterationResults(it.steps);
      var passed := UntilHolds(env.holds, loop.until, it.number, results);
      nodes := SetLastIteration(nodes, pos, it.(untilPassed := Some(passed), state := Completed));
      ok := Commit(None);
    }

    /** _finish_loop; error says whether its diagnostic goes to the errors. */
    method FinishLoop(pos: nat, failed: bool, error: bool) returns (t: Transition)
      requires LoopAt(nodes, pos)
      modifies this, store
      ensures old(store.Consistent()) ==> store.Consistent()
      ensures inFlight == old(inFlight) && (t == NodeFailed || t == NodeCompleted)
      ensures Now(NodeControl(t))
            == Apply(old(Now(Ready)), Transitions.FinishLoop(old(Now(Ready)).core, pos, failed, error))
    {
      hasError := hasError || error;
      var loop := nodes[pos];
      var it := Last(loop.iterations);
      if failed && !Terminal(it.state) {
        it := it.(state := Failed);
      }
      nodes := nodes[pos := loop.(iterations := WithLast(loop.iterations, it),
                                  state := if failed then Failed else Completed)];
      var committed := Commit(None);
      t := if failed || !committed then NodeFailed else NodeCompleted;
    }

    /** _advance_body_step: a failed slot fails the loop. */
    method AdvanceBodyStep(pos: nat, def: LoopDef, index: nat) returns (t: Option<Transition>)
      requires Valid() && InLoop(env.blueprint, nodes, pos, def) && index < |def.body|
      requires SelectMove(env.blueprint, nodes) == RunSlot(Body(pos, index), def.body[index])
      modifies this, store, outside
      ensures old(store.Consistent()) ==> store.Consistent()
      ensures LoopOutcome(old(Now(Ready)), t, pos, def)
    {
      hide SelectMove, Runnable, Advances, FirstLive, Reaches, Tick, CancelEffect, Transitions.FinishLoop;
      ghost var m := Now(Ready);
      var at := Body(pos, index);
      inFlight := Some(at);
      var s := AdvanceSlot(at, def.body[index]);
      if s == NodeFailed {
        ghost var failing := Now(FailingLoop(pos));
        AdvancesReaches(env, m, failing);
        FailingTick(env, failing, pos);
        var f := FinishLoop(pos, true, false);
        AdvancesTick(env, m, failing);
        return Some(f);
      }
      if s == NodePaused || s == Raised || s == Died {
        return Some(s);
      }
      t := None;
      AdvancesReaches(env, m, Now(Ready));
    }

    /** What applying a loop decision establishes: None re-evaluates the loop, anything else ends the node. */
    ghost predicate LoopOutcome(before: Machine, t: Option<Transition>, pos: nat, def: LoopDef)
      reads this, store, outside
    {
      match t
      case None => Valid() && InLoop(env.blueprint, nodes, pos, def) && Advances(env, before, Now(Ready))
      case Some(Raised) =>
        InFlightFits(nodes, inFlight)
        && Advances(env, before, Apply(Now(Ready), CancelEffect(Now(Ready).core, inFlight.value)))
      case Some(ended) => Advances(env, before, Now(NodeControl(ended))) && ended != NodeRetry && ended != NodeContinued
    }

    /** The granted iterations of _resolve_ceiling, committed. */
    method GrantIterations(pos: nat) returns (ok: bool)
      requires LoopAt(nodes, pos)
      modifies this, store
      ensures old(store.Consistent()) ==> store.Consistent()
      ensures inFlight == old(inFlight) && LoopFrame(old(nodes), nodes, pos)
      ensures nodes[pos].state == old(nodes)[pos].state
      ensures Now(if ok then Ready else Halted(Returned(RunFailed)))
           == Apply(old(Now(Ready)), Transitions.GrantIterations(old(Now(Ready)).core, pos))
    {
      nodes := nodes[pos := nodes[pos].(granted := nodes[pos].granted + CEILING_GRANT_COUNT)];
      ok := Commit(None);
    }

    /** _resolve_ceiling. */
    method ResolveCeiling(pos: nat, def: LoopDef) returns (t: Option<Transition>)
      requires Valid() && InLoop(env.blueprint, nodes, pos, def)
      requires SelectMove(env.blueprint, nodes) == LoopMove(pos, def.body, PromptCeiling)
      modifies this, store, outside
      ensures old(store.Consistent()) ==> store.Consistent()
      ensures LoopOutcome(old(Now(Ready)), t, pos, def)
    {
      hide Tick, SelectMove, Advances, Apply, Transitions.FinishLoop, Transitions.GrantIterations, CancelLoop;
      hide Runnable, CancelEffect, InFlightFits, LeafAt, Lookup;
      ghost var m := Now(Ready);
      TickAdvances(env, m);
      CeilingTick(env, m, pos, def);
      CancelsLoop(m.core.(replies := Rest(m.core.replies)), pos);
      inFlight := Some(Top(pos));
      if !env.hasPrompter || !env.Interactive() {
        var f := FinishLoop(pos, true, true);
        return Some(f);
      }
      var a := outside.Ask();
      match a
      case NoAnswer => t := Some(Died);
      case Interrupted => t := Some(Raised);
      case Replied(reply) =>
        match reply.loop
        case AnswerGrant =>
          var ok := GrantIterations(pos);
          t := if ok then None else Some(NodeFailed);
          if ok { InLoopStays(env.blueprint, m.core.nodes, nodes, pos, def); }
        case AnswerContinue =>
          var f := FinishLoop(pos, false, false);
          t := Some(f);
        case AnswerAbort =>
          var f := FinishLoop(pos, true, true);
          t := Some(f);
    }

    /** _apply_loop_decision. */
    method ApplyLoopDecision(pos: nat, def: LoopDef, decision: LoopDecision) returns (t: Option<Transition>)
      requires Valid() && InLoop(env.blueprint, nodes, pos, def) && decision == Decide(nodes[pos], def.body)
      modifies this, store, outside
      ensures old(store.Consistent()) ==> store.Consistent()
      ensures LoopOutcome(old(Now(Ready)), t, pos, def)
    {
      hide Tick, SelectMove, Advances, Runnable, Apply, Transitions.FinishLoop, CloseIteration;
      hide Transitions.RepeatIteration, Decide, InFlightFits, CancelEffect, FindsBody, UntilHolds;
      ghost var m := Now(Ready);
      InLoopSelects(env.blueprint, nodes, pos, def);
      if decision.AdvanceBodyStep? {
        t := AdvanceBodyStep(pos, def, decision.index);
        return;
      }
      if decision.PromptCeiling? {
        t := ResolveCeiling(pos, def);
        return;
      }
      TickAdvances(env, m);
      LoopTick(env, m, pos, def, decision);
      match decision
      case CompleteIteration =>
        var ok := CompleteIteration(pos);
        t := if ok then None else Some(NodeFailed);
      case RepeatNextIteration(number) =>
        var ok := RepeatIteration(pos, def, number);
        t := if ok then None else Some(NodeFailed);
      case TerminateLoopPassed =>
        var f := FinishLoop(pos, false, false);
        t := Some(f);
      case TerminateLoopCeiling =>
        var failed := nodes[pos].onMaxIterations.Abort?;
        var f := FinishLoop(pos, failed, failed);
        t := Some(f);
    }

    /** _advance_loop: apply loop decisions until one ends the node. */
    method AdvanceLoop(pos: nat, def: LoopDef) returns (t: Transition)
      requires Valid() && LoopAt(nodes, pos) && FirstLive(nodes) == pos
      requires FindsBody(env.blueprint, nodes[pos].id, def.body)
      modifies this, store, outside
      ensures old(store.Consistent()) ==> store.Consistent()
      ensures NodeOutcome(old(Now(Ready)), t)
    {
      hide Runnable, Tick, Advances, Below, Rank;
      ghost var m := Now(Ready);
      if nodes[pos].state.Pending? {
        OpenTick'(env, m, pos, def);
        TickAdvances(env, m);
        var ok := BeginIteration(pos);
        if !ok {
          return NodeFailed;
        }
      }
      while true
        invariant Valid() && InLoop(env.blueprint, nodes, pos, def)
        invariant Now(Ready) == m || Advances(env, m, Now(Ready))
        invariant old(store.Consistent()) ==> store.Consistent()
        modifies this, store, outside
        decreases |outside.replies|, Rank(nodes)
      {
        ghost var here := Now(Ready);
        var decision := Decide(nodes[pos], def.body);
        var r := ApplyLoopDecision(pos, def, decision);
        if r.Some? {
          t := r.value;
          EndsNode(env, m, here, t);
          return;
        }
        AdvancesFrom(env, m, here, Now(Ready));
        AdvancesBelow(env, here, Now(Ready));
        BelowReady(Now(Ready).core, here.core);
      }
    }

    /** What running a node to its end establishes. */
    ghost predicate NodeOutcome(before: Machine, t: Transition)
      reads this, store, outside
    {
      if t == Raised then
        InFlightFits(nodes, inFlight)
        && Advances(env, before, Apply(Now(Ready), CancelEffect(Now(Ready).core, inFlight.value)))
      else
        Advances(env, before, Now(NodeControl(t)))
    }

    lemma EndsNode(env: Env, m: Machine, here: Machine, t: Transition)
      requires this.env == env && NodeOutcome(here, t) && (here == m || Advances(env, m, here))
      ensures NodeOutcome(m, t)
    {
      hide Advances;
      if t == Raised {
        AdvancesFrom(env, m, here, Apply(Now(Ready), CancelEffect(Now(Ready).core, inFlight.value)));
      } else {
        AdvancesFrom(env, m, here, Now(NodeControl(t)));
      }
    }

    // ---- the driver ----

    /** _next_node. */
    method NextNode() returns (pos: nat)
      ensures pos == FirstLive(nodes)
    {
      pos := 0;
      while pos < |nodes| && Terminal(NodeStateOf(nodes[pos]))
        invariant pos <= |nodes| && forall i :: 0 <= i < pos ==> Terminal(NodeStateOf(nodes[i]))
      {
        pos := pos + 1;
      }
      FirstLiveIs(nodes, pos);
    }

    /** _dispatch the node at pos to its definition. */
    method Dispatch(pos: nat) returns (t: Transition)
      requires Valid() && pos < |nodes| && pos == FirstLive(nodes) && inFlight == Some(Top(pos))
      modifies this, store, outside
      ensures old(store.Consistent()) ==> store.Consistent()
      ensures NodeOutcome(old(Now(Ready)), t)
    {
      hide Tick, Advances;
      var definition := Lookup(env.blueprint, NodeId(nodes[pos]));
      if nodes[pos].StepNode? && definition.Some? && definition.value.StepItem? {
        hide Runnable;
        t := AdvanceSlot(Top(pos), definition.value.step);
      } else if nodes[pos].LoopNode? && definition.Some? && definition.value.LoopItem? {
        assert RunnableNode(env.blueprint, nodes[pos]);
        hide Runnable;
        t := AdvanceLoop(pos, definition.value.loop);
      } else {
        ghost var m := Now(Ready);
        TickAdvances(env, m);
        MissingTick(env, m);
        hasError := true;
        t := NodeFailed;
      }
    }

    /** _drive; None means KeyboardInterrupt was raised. */
    method Drive() returns (e: Option<Ending>)
      requires Valid()
      modifies this, store, outside
      ensures old(store.Consistent()) ==> store.Consistent()
      ensures e.Some? ==> Reaches(env, old(Now(Ready)), Now(Halted(e.value)))
      ensures e.None? ==> InFlightFits(nodes, inFlight)
      ensures e.None? ==>
                Reaches(env, old(Now(Ready)), Apply(Now(Ready), CancelEffect(Now(Ready).core, inFlight.value)))
    {
      hide Runnable, Tick, Advances, Reaches, Below, Rank, Apply, CancelEffect, FirstLive;
      ghost var m := Now(Ready);
      ReachesTick(env, m);
      while true
        invariant Valid() && Reaches(env, m, Now(Ready))
        invariant old(store.Consistent()) ==> store.Consistent()
        modifies this, store, outside
        decreases |outside.replies|, Rank(nodes)
      {
        ghost var here := Now(Ready);
        ReachesSound(env, m, here);
        var pos := NextNode();
        if pos == |nodes| {
          DoneTick(env, here);
          ReachesTick(env, here);
          ReachesTrans(env, m, here, Tick(env, here));
          return Some(Returned(RunCompleted));
        }
        inFlight := Some(Top(pos));
        var t := Dispatch(pos);
        if t == Raised {
          ghost var b := Apply(Now(Ready), CancelEffect(Now(Ready).core, inFlight.value));
          AdvancesReaches(env, here, b);
          ReachesTrans(env, m, here, b);
          return None;
        }
        AdvancesReaches(env, here, Now(NodeControl(t)));
        ReachesTrans(env, m, here, Now(NodeControl(t)));
        match t
        case NodePaused => return Some(Returned(RunPaused));
        case NodeFailed => return Some(Returned(RunFailed));
        case Died => return Some(Killed);
        case _ =>
          AdvancesBelow(env, here, Now(Ready));
          BelowReady(Now(Ready).core, here.core);
          ReachesSound(env, m, Now(Ready));
      }
    }

    /** _recover_interrupted: close every open attempt, in tree order, and commit when there was one. */
    method RecoverInterrupted() returns (ok: bool)
      requires Valid()
      modifies this, store
      ensures old(store.Consistent()) ==> store.Consistent()
      ensures inFlight == old(inFlight) && (ok ==> Valid())
      ensures Now(if ok then Ready else Halted(Returned(RunFailed))) == Tick(env, old(Now(Starting)))
    {
      hide Recover, RecoverNode, NodeHasOpenAttempt, Runnable, ApplyMove;
      ghost var m := Now(Starting);
      ghost var before := nodes;
      var recovered := false;
      var i := 0;
      while i < |nodes|
        invariant i <= |nodes| == |before|
        invariant forall k :: 0 <= k < i ==> nodes[k] == RecoverNode(before[k])
        invariant forall k :: i <= k < |nodes| ==> nodes[k] == before[k]
        invariant recovered == exists k :: 0 <= k < i && NodeHasOpenAttempt(before[k])
        invariant Now(Starting) == m.(core := m.core.(nodes := nodes))
        modifies `nodes
      {
        var found := RecoverAt(i);
        recovered := recovered || found;
        i := i + 1;
      }
      assert nodes == Recover(before);
      assert recovered == HasOpenAttempt(before);
      RunnableRecover(env.blueprint, before);
      if recovered {
        ok := Commit(None);
      } else {
        ok := true;
      }
    }

    /** The recovery of one node's leaves. */
    method RecoverAt(pos: nat) returns (found: bool)
      requires pos < |nodes|
      modifies `nodes
      ensures nodes == old(nodes)[pos := RecoverNode(old(nodes)[pos])]
      ensures found == NodeHasOpenAttempt(old(nodes)[pos])
    {
      match nodes[pos]
      case StepNode(leaf) =>
        found := OpenAttempt(leaf);
        nodes := nodes[pos := StepNode(RecoverLeaf(leaf))];
      case LoopNode(_, _, _, _, _, its, _) =>
        found := false;
        var j := 0;
        var updated := its;
        while j < |its|
          modifies {}
          invariant j <= |its| == |updated|
          invariant forall k :: 0 <= k < j ==> updated[k] == RecoverIteration(its[k])
          invariant forall k :: j <= k < |its| ==> updated[k] == its[k]
          invariant found
                == exists k :: 0 <= k < j && exists l :: 0 <= l < |its[k].steps| && OpenAttempt(its[k].steps[l])
        {
          var steps, any := RecoverSteps(its[j].steps);
          updated := updated[j := its[j].(steps := steps)];
          found := found || any;
          j := j + 1;
        }
        assert updated == RecoverIterations(its);
        nodes := nodes[pos := nodes[pos].(iterations := updated)];
    }

    static method RecoverSteps(leaves: seq<Leaf>) returns (r: seq<Leaf>, found: bool)
      ensures r == RecoverLeaves(leaves)
      ensures found == exists l :: 0 <= l < |leaves| && OpenAttempt(leaves[l])
    {
      r, found := leaves, false;
      for k := 0 to |leaves|
        invariant |r| == |leaves|
        invariant forall l :: 0 <= l < k ==> r[l] == RecoverLeaf(leaves[l])
        invariant forall l :: k <= l < |leaves| ==> r[l] == leaves[l]
        invariant found == exists l :: 0 <= l < k && OpenAttempt(leaves[l])
      {
        if OpenAttempt(r[k]) {
          r := r[k := RecoverLeaf(r[k])];
          found := true;
        }
      }
    }

    /** _cancel. */
    method Cancel()
      requires InFlightFits(nodes, inFlight)
      modifies this, store
      ensures old(store.Consistent()) ==> store.Consistent()
      ensures Now(Halted(Returned(RunCancelled)))
           == Apply(old(Now(Ready)), CancelEffect(old(Now(Ready)).core, old(inFlight).value))
    {
      var at := inFlight.value;
      if LeafAt(nodes, at) {
        nodes := SetLeaf(nodes, at, GetLeaf(nodes, at).(state := Cancelled));
      } else {
        nodes := nodes[at.pos := nodes[at.pos].(state := Cancelled)];
      }
      var _ := Commit(None);
      hasError := true;
    }

    /** execute: the coordinator halts, having made exactly the machine's run. */
    method Execute() returns (ending: Ending)
      requires Valid()
      modifies this, store, outside
      ensures old(store.Consistent()) ==> store.Consistent()
      ensures Now(Halted(ending)) == RunToHalt(env, old(Now(Starting)))
    {
      ghost var m := Now(Starting);
      ReachesTick(env, m);
      hide Runnable, Tick, Reaches, RunToHalt;
      var ok := RecoverInterrupted();
      if !ok {
        ReachesEnd(env, m, Now(Halted(Returned(RunFailed))));
        return Returned(RunFailed);
      }
      ghost var started := Now(Ready);
      var e := Drive();
      if e.None? {
        ghost var b := Apply(Now(Ready), CancelEffect(Now(Ready).core, inFlight.value));
        ReachesTrans(env, m, started, b);
        Cancel();
        ending := Returned(RunCancelled);
      } else {
        ending := e.value;
        ReachesTrans(env, m, started, Now(Halted(ending)));
      }
      ReachesEnd(env, m, Now(Halted(ending)));
    }
  }

  // ---- facts the methods use ----

  lemma CancelsLoop(c: Core, pos: nat)
    requires LoopAt(c.nodes, pos)
    ensures InFlightFits(c.nodes, Some(Top(pos))) && CancelEffect(c, Top(pos)) == CancelLoop(c, pos)
  {
  }

  lemma InLoopStays(defs: seq<Definition>, a: seq<Node>, b: seq<Node>, pos: nat, def: LoopDef)
    requires InLoop(defs, a, pos, def) && LoopFrame(a, b, pos)
    requires b[pos].state == a[pos].state || b[pos].state.Running?
    ensures InLoop(defs, b, pos, def)
  {
  }

  lemma InLoopSelects(defs: seq<Definition>, nodes: seq<Node>, pos: nat, def: LoopDef)
    requires Runnable(defs, nodes) && InLoop(defs, nodes, pos, def)
    ensures var decision := Decide(nodes[pos], def.body);
            if decision.AdvanceBodyStep? then
              && decision.index < |def.body|
              && SelectMove(defs, nodes) == RunSlot(Body(pos, decision.index), def.body[decision.index])
            else SelectMove(defs, nodes) == LoopMove(pos, def.body, decision)
  {
    FirstLiveIs(nodes, pos);
  }

  /** Opening a freshly appended iteration is repeating the loop. */
  lemma AppendedOpens(c: Core, pos: nat, def: LoopDef, number: nat)
    requires LoopAt(c.nodes, pos)
    ensures var its := c.nodes[pos].iterations + [NewIteration(def.body, number)];
            var nodes := c.nodes[pos := c.nodes[pos].(iterations := its)];
            OpenIteration(c.(nodes := nodes), pos) == Transitions.RepeatIteration(c, pos, def.body, number)
  {
    var its := c.nodes[pos].iterations + [NewIteration(def.body, number)];
    assert WithLast(its, Last(its).(state := Running))
        == c.nodes[pos].iterations + [NewIteration(def.body, number).(state := Running)];
  }

  lemma LoopTick(env: Env, m: Machine, pos: nat, def: LoopDef, decision: LoopDecision)
    requires Sound(env, m.core) && m.core.control.Ready? && LoopAt(m.core.nodes, pos) && !decision.AdvanceBodyStep?
    requires SelectMove(env.blueprint, m.core.nodes) == LoopMove(pos, def.body, decision)
    ensures Tick(env, m) == Apply(m, Transitions.ApplyLoopDecision(env, m.core, pos, def.body, decision))
  {
    hide Transitions.ApplyLoopDecision, SelectMove, Runnable;
  }

  lemma CeilingTick(env: Env, m: Machine, pos: nat, def: LoopDef)
    requires Sound(env, m.core) && m.core.control.Ready? && LoopAt(m.core.nodes, pos)
    requires SelectMove(env.blueprint, m.core.nodes) == LoopMove(pos, def.body, PromptCeiling)
    ensures !env.Interactive() ==> Tick(env, m) == Apply(m, Transitions.FinishLoop(m.core, pos, true, true))
    ensures var m1 := m.(core := m.core.(replies := Rest(m.core.replies)));
            env.Interactive() ==> Tick(env, m) == AfterCeiling(m1, AnswerOf(m.core.replies), pos)
  {
    hide SelectMove, Runnable, Tick, Transitions.FinishLoop, Transitions.GrantIterations, CancelLoop;
    LoopTick(env, m, pos, def, PromptCeiling);
  }

  /** The machine after the ceiling prompt was answered. */
  function AfterCeiling(m: Machine, a: Answer, pos: nat): Machine
    requires LoopAt(m.core.nodes, pos)
  {
    match a
    case NoAnswer => m.(core := m.core.(control := Halted(Killed)))
    case Interrupted => Apply(m, CancelLoop(m.core, pos))
    case Replied(Interrupt) => m
    case Replied(Reply(_, _, AnswerGrant)) => Apply(m, Transitions.GrantIterations(m.core, pos))
    case Replied(Reply(_, _, AnswerContinue)) => Apply(m, Transitions.FinishLoop(m.core, pos, false, false))
    case Replied(Reply(_, _, AnswerAbort)) => Apply(m, Transitions.FinishLoop(m.core, pos, true, true))
  }

  lemma OpenTick'(env: Env, m: Machine, pos: nat, def: LoopDef)
    requires Sound(env, m.core) && m.core.control.Ready? && LoopAt(m.core.nodes, pos) && FirstLive(m.core.nodes) == pos
    requires FindsBody(env.blueprint, m.core.nodes[pos].id, def.body) && m.core.nodes[pos].state.Pending?
    ensures Tick(env, m) == Apply(m, OpenIteration(m.core, pos))
  {
    assert SelectMove(env.blueprint, m.core.nodes) == OpenLoop(pos);
    hide SelectMove, Runnable, OpenIteration;
  }

  lemma MissingTick(env: Env, m: Machine)
    requires Sound(env, m.core) && m.core.control.Ready? && SelectMove(env.blueprint, m.core.nodes).NoDefinition?
    ensures Tick(env, m) == m.(core := m.core.(control := Halted(Returned(RunFailed)), hasError := true))
  {
    hide SelectMove, Runnable;
  }

  lemma DoneTick(env: Env, m: Machine)
    requires Sound(env, m.core) && m.core.control.Ready? && FirstLive(m.core.nodes) == |m.core.nodes|
    ensures Tick(env, m) == m.(core := m.core.(control := Halted(Returned(RunCompleted))))
  {
    assert SelectMove(env.blueprint, m.core.nodes) == AllTerminal;
    hide SelectMove, Runnable;
  }

  lemma FailingTick(env: Env, m: Machine, pos: nat)
    requires m.core.control == FailingLoop(pos) && Sound(env, m.core)
    ensures var m1 := m.(core := m.core.(control := Ready));
            Tick(env, m) == Apply(m1, Transitions.FinishLoop(m1.core, pos, true, false))
  {
    hide ApplyMove, Runnable;
  }

  lemma AdvancesTick(env: Env, m: Machine, a: Machine)
    requires Advances(env, m, a)
    ensures Sound(env, a.core) && Advances(env, m, Tick(env, a))
  {
    AdvancesReaches(env, m, a);
    hide Tick;
    ReachesTick(env, a);
    AdvancesTrans(env, m, a, Tick(env, a));
  }

  lemma ReachesSound(env: Env, a: Machine, b: Machine)
    requires Reaches(env, a, b)
    ensures Sound(env, b.core)
  {
    var n: nat :| Ticks(env, a, n) == b;
  }

  /** Between two Ready cores the measure is replies, then rank. */
  lemma BelowReady(a: Core, b: Core)
    requires Below(a, b) && a.control.Ready? && b.control.Ready?
    ensures |a.replies| < |b.replies| || (|a.replies| == |b.replies| && Rank(a.nodes) < Rank(b.nodes))
  {
  }

  lemma ApplyIgnoresCore(m: Machine, c: Core, e: Effect)
    ensures Apply(m.(core := c), e) == Apply(m, e)
  {
  }

  lemma AppliedReaches(env: Env, m: Machine, e: Effect)
    requires SoundAfter(env, e)
    ensures Reaches(env, Apply(m, e), Apply(m, e))
  {
    ApplySound(env, m, e);
    ReachesTick(env, Apply(m, e));
  }

  lemma SetLeafFrame(nodes: seq<Node>, at: Target, leaf: Leaf)
    requires LeafAt(nodes, at)
    ensures SlotFrame(nodes, SetLeaf(nodes, at, leaf), at)
  {
  }

  lemma FrameRefl(nodes: seq<Node>, at: Target)
    requires LeafAt(nodes, at)
    ensures SlotFrame(nodes, nodes, at)
  {
  }

  lemma SlotFrameTrans(a: seq<Node>, b: seq<Node>, c: seq<Node>, at: Target)
    requires SlotFrame(a, b, at) && SlotFrame(b, c, at)
    ensures SlotFrame(a, c, at)
  {
  }

  lemma ApplySound(env: Env, m: Machine, e: Effect)
    requires SoundAfter(env, e)
    ensures Sound(env, Apply(m, e).core)
  {
  }

  /** The machine after run_attempt has been called for the leaf at this place. */
  function CalledMachine(m: Machine, at: Target, step: StepDef): Machine
    requires LeafAt(m.core.nodes, at) && GetLeaf(m.core.nodes, at).attempts != []
  {
    m.(core := m.core.(executed := m.core.executed + [ExecutionOf(m.core.nodes, at, step)],
                       replies := Rest(m.core.replies)))
  }

  lemma OpenTick(env: Env, m: Machine, at: Target, step: StepDef)
    requires Sound(env, m.core) && m.core.control.Ready? && SelectMove(env.blueprint, m.core.nodes) == RunSlot(at, step)
    requires LeafAt(m.core.nodes, at) && GetLeaf(m.core.nodes, at).attempts != []
    requires RunnableLeaf(GetLeaf(m.core.nodes, at)) && !Terminal(GetLeaf(m.core.nodes, at).state)
    requires !GetLeaf(m.core.nodes, at).state.Paused? && !GetLeaf(m.core.nodes, at).state.Pending?
    ensures var m1 := CalledMachine(m, at, step);
            Tick(env, m)
            == match AnswerOf(m.core.replies)
               case NoAnswer => m1.(core := m1.core.(control := Halted(Killed)))
               case Interrupted => Apply(m1, CancelLeaf(m1.core, at))
               case Replied(reply) => Apply(m1, Settle(env, m1.core, at, step, reply.result))
  {
    SlotTick(env, m, at, step);
    OpenSlotUnfolds(env, m.core, at, step);
    hide Tick, AdvanceSlot, SelectMove, Runnable, Settle;
  }

  lemma PromptTick(env: Env, m: Machine, at: Target, result: StepResult)
    requires Sound(env, m.core) && m.core.control == Prompting(at)
    requires Last(GetLeaf(m.core.nodes, at).attempts).result == Some(result)
    ensures var m1 := m.(core := m.core.(replies := Rest(m.core.replies), control := Ready));
            Tick(env, m)
            == match AnswerOf(m.core.replies)
               case NoAnswer => m1.(core := m1.core.(control := Halted(Killed)))
               case Interrupted => m1.(core := m1.core.(control := Halted(Returned(RunPaused)), hasError := true))
               case Replied(reply) =>
                 var (action, recorded) := ApplyPromptDecision(reply.step, result);
                 Apply(m1, ApplyAction(m1.core, at, action, recorded, Some(RunRunning)))
  {
    hide ApplyMove, Runnable;
    var c := m.core;
    if c.replies != [] && c.replies[0].Reply? {
      var (action, recorded) := ApplyPromptDecision(c.replies[0].step, result);
      ActionIgnoresControl(c.(replies := c.replies[1..]), at, action, recorded, Some(RunRunning));
    }
  }

  lemma ActionIgnoresControl(c: Core, at: Target, action: StepAction, result: StepResult, status: Option<RunStatus>)
    requires LeafAt(c.nodes, at) && GetLeaf(c.nodes, at).attempts != []
    ensures ApplyAction(c, at, action, result, status) == ApplyAction(c.(control := Ready), at, action, result, status)
  {
  }

  lemma GatePrompts(env: Env, c: Core, at: Target, step: StepDef, result: StepResult)
    requires LeafAt(c.nodes, at) && Asks(step.onFailure)
    requires GetLeaf(c.nodes, at).attempts != [] && Last(GetLeaf(c.nodes, at).attempts).result == Some(result)
    ensures Gate(env, c, at, step)
         == if env.Interactive() then
              Effect(c.(nodes := SetLeaf(c.nodes, at, GetLeaf(c.nodes, at).(state := Paused)),
                        control := Prompting(at)), true, Some(RunPaused), FailedAt(at))
            else FailLeaf(c, at, None)
  {
    hide SetLeaf, FailLeaf;
  }

  lemma SettleUnfolds(env: Env, c: Core, at: Target, step: StepDef, result: StepResult)
    requires LeafAt(c.nodes, at) && GetLeaf(c.nodes, at).attempts != []
    ensures var leaf := RecordResult(GetLeaf(c.nodes, at), result);
            var c1 := c.(nodes := SetLeaf(c.nodes, at, leaf));
            && leaf.attempts != [] && Last(leaf.attempts).result == Some(result)
            && Settle(env, c, at, step, result)
               == if result.Ok() then
                    SettleLeaf(c1, at, if result.status.ResultIgnored? then Ignored else Completed, result, None)
                  else Gate(env, c1, at, step)
  {
    hide Gate, SettleLeaf;
  }

  /** What advancing a slot with an open attempt proposes, by reply. */
  lemma OpenSlotUnfolds(env: Env, c: Core, at: Target, step: StepDef)
    requires LeafAt(c.nodes, at) && GetLeaf(c.nodes, at).attempts != []
    requires RunnableLeaf(GetLeaf(c.nodes, at)) && !Terminal(GetLeaf(c.nodes, at).state)
    requires !GetLeaf(c.nodes, at).state.Paused? && !GetLeaf(c.nodes, at).state.Pending?
    ensures var c1 := c.(executed := c.executed + [ExecutionOf(c.nodes, at, step)], replies := Rest(c.replies));
            AdvanceSlot(env, c, at, step)
            == match AnswerOf(c.replies)
               case NoAnswer => Stop(c1, Killed)
               case Interrupted => CancelLeaf(c1, at)
               case Replied(reply) => Settle(env, c1, at, step, reply.result)
  {
    hide Gate, BeginAttempt, Settle, CancelLeaf;
  }

  lemma SlotTick(env: Env, m: Machine, at: Target, step: StepDef)
    requires Sound(env, m.core) && m.core.control.Ready? && SelectMove(env.blueprint, m.core.nodes) == RunSlot(at, step)
    requires LeafAt(m.core.nodes, at) && RunnableLeaf(GetLeaf(m.core.nodes, at))
    requires !Terminal(GetLeaf(m.core.nodes, at).state)
    ensures Tick(env, m) == Apply(m, AdvanceSlot(env, m.core, at, step))
  {
    hide AdvanceSlot, SelectMove, Runnable;
  }

  lemma SlotCases(env: Env, m: Machine, at: Target, step: StepDef)
    requires Sound(env, m.core) && m.core.control.Ready? && SelectMove(env.blueprint, m.core.nodes) == RunSlot(at, step)
    requires LeafAt(m.core.nodes, at) && RunnableLeaf(GetLeaf(m.core.nodes, at))
    requires !Terminal(GetLeaf(m.core.nodes, at).state)
    ensures GetLeaf(m.core.nodes, at).state.Paused? ==> Tick(env, m) == Apply(m, Gate(env, m.core, at, step))
    ensures GetLeaf(m.core.nodes, at).state.Pending? ==> Tick(env, m) == Apply(m, BeginAttempt(m.core, at, 1, None))
  {
    SlotTick(env, m, at, step);
    hide Tick, SelectMove, Runnable, Gate, BeginAttempt, RunAttempt;
  }

  /** After its first attempt is begun the same slot is still selected, now with an open attempt. */
  lemma BegunSlot(env: Env, m: Machine, m1: Machine, at: Target, step: StepDef)
    requires Sound(env, m.core) && Sound(env, m1.core) && m1.core.control.Ready?
    requires SelectMove(env.blueprint, m.core.nodes) == RunSlot(at, step)
    requires LeafAt(m.core.nodes, at) && GetLeaf(m.core.nodes, at).state.Pending?
    requires m1 == Apply(m, BeginAttempt(m.core, at, 1, None))
    ensures Runnable(env.blueprint, m1.core.nodes)
    ensures SelectMove(env.blueprint, m1.core.nodes) == RunSlot(at, step)
    ensures LeafAt(m1.core.nodes, at) && GetLeaf(m1.core.nodes, at).state.Running?
    ensures GetLeaf(m1.core.nodes, at).attempts != []
  {
    var leaf := GetLeaf(m1.core.nodes, at);
    SelectStable(env.blueprint, m.core.nodes, at, step, leaf);
  }

  lemma AdvancesFrom(env: Env, m: Machine, m1: Machine, b: Machine)
    requires Advances(env, m1, b) && (m1 == m || Advances(env, m, m1))
    ensures Advances(env, m, b)
  {
    if m1 != m {
      AdvancesReaches(env, m1, b);
      AdvancesTrans(env, m, m1, b);
    }
  }
}
