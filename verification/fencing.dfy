/** Fencing: a coordinator whose commit was refused is out of the run for good. */
module Fencing {
  import opened StateModels
  import opened FailureRules
  import opened LoopPolicy
  import opened Transitions
  import opened Rows
  import opened Soundness

  /** Revisions only grow, so a row is never behind a coordinator bound to it. */
  predicate NotBehind(m: Machine) {
    m.row.None? || m.revision <= m.row.value.revision
  }

  /** The row is gone, or another writer has moved it on. */
  predicate Overtaken(m: Machine) {
    m.row.None? || m.revision < m.row.value.revision
  }

  predicate Ousted(control: Control) {
    control == Halted(Returned(RunFailed)) || control == Halted(Returned(RunCancelled))
  }

  lemma DisturbGrows(row: Option<Row>, intrusions: seq<Intrusion>)
    ensures row.None? ==> Disturb(row, intrusions).None?
    ensures row.Some? && Disturb(row, intrusions).Some? ==>
              row.value.revision <= Disturb(row, intrusions).value.revision
  {
  }

  lemma ActionRefused(c: Core, at: Target, action: StepAction, r: StepResult, status: Option<RunStatus>)
    requires LeafAt(c.nodes, at) && GetLeaf(c.nodes, at).attempts != []
    ensures ApplyAction(c, at, action, r, status).refused == FailedAt(at)
  {
    hide SetLeaf;
  }

  lemma GateRefused(env: Env, c: Core, at: Target, step: StepDef)
    requires LeafAt(c.nodes, at)
    ensures Gate(env, c, at, step).refused == FailedAt(at)
  {
    hide SetLeaf;
  }

  lemma SlotRefused(env: Env, c: Core, at: Target, step: StepDef)
    requires LeafAt(c.nodes, at) && RunnableLeaf(GetLeaf(c.nodes, at)) && !Terminal(GetLeaf(c.nodes, at).state)
    requires AdvanceSlot(env, c, at, step).commit
    ensures var control := AdvanceSlot(env, c, at, step).refused; Ousted(control) || control.FailingLoop?
  {
    hide SetLeaf, Gate;
    var leaf := GetLeaf(c.nodes, at);
    GateRefused(env, c, at, step);
    if leaf.state.Running? && c.replies != [] && !c.replies[0].Interrupt? {
      var c2 := c.(executed := c.executed + [ExecutionOf(c.nodes, at, step)], replies := c.replies[1..]);
      GateRefused(env, c2.(nodes := SetLeaf(c.nodes, at, RecordResult(leaf, c.replies[0].result))), at, step);
    }
  }

  /** A refused commit ends the run, or leaves only its loop to be failed. */
  lemma RefusedControl(env: Env, c: Core)
    requires Sound(env, c) && Propose(env, c).commit
    ensures Ousted(Propose(env, c).refused) || Propose(env, c).refused.FailingLoop?
  {
    hide UntilHolds, SelectMove, Runnable, AdvanceSlot, ApplyAction;
    match c.control
    case Ready =>
      var move := SelectMove(env.blueprint, c.nodes);
      if move.RunSlot? {
        SlotSelected(env, c.nodes, move.at, move.step);
        SlotRefused(env, c, move.at, move.step);
      }
    case Prompting(at) =>
      hide ApplyMove;
      if c.replies != [] && !c.replies[0].Interrupt? {
        var (action, recorded) := ApplyPromptDecision(c.replies[0].step,
                                                      Last(GetLeaf(c.nodes, at).attempts).result.value);
        ActionRefused(c.(replies := c.replies[1..]), at, action, recorded, Some(RunRunning));
      }
    case _ => hide Runnable, ApplyMove;
  }

  lemma TickNotBehind(env: Env, m: Machine)
    requires Sound(env, m.core) && NotBehind(m)
    ensures NotBehind(Tick(env, m))
  {
    hide Propose;
    DisturbGrows(m.row, m.intrusions);
  }

  /** A coordinator in no position to write: it has halted, or is about to fail its loop. */
  predicate Fenced(m: Machine) {
    Overtaken(m) && m.core.hasError && (Ousted(m.core.control) || m.core.control.FailingLoop?)
  }

  lemma RefusalFences(env: Env, m: Machine)
    requires Sound(env, m.core) && NotBehind(m) && Propose(env, m.core).commit
    requires !Accepts(Disturb(m.row, m.intrusions), m.revision)
    ensures Fenced(Tick(env, m)) && Tick(env, m).revision == m.revision
  {
    RefusedControl(env, m.core);
    hide Propose;
    DisturbGrows(m.row, m.intrusions);
  }

  lemma FencedTick(env: Env, m: Machine)
    requires Sound(env, m.core) && Fenced(m)
    ensures var m1 := Tick(env, m);
            && Fenced(m1) && m1.core.executed == m.core.executed && m1.revision == m.revision && Ousted(m1.core.control)
            && (m1.row == m.row || m1.row == Disturb(m.row, m.intrusions))
  {
    hide ApplyMove, Runnable;
    DisturbGrows(m.row, m.intrusions);
  }

  lemma {:induction false} FencedTicks(env: Env, m: Machine, n: nat)
    requires Sound(env, m.core) && Fenced(m)
    ensures var r := Ticks(env, m, n);
            && Fenced(r) && r.core.executed == m.core.executed && r.revision == m.revision
            && (n > 0 ==> Ousted(r.core.control))
    decreases n
  {
    hide Tick, Fenced, Ousted;
    TickSound(env, m);
    if n > 0 {
      FencedTick(env, m);
      FencedTicks(env, Tick(env, m), n - 1);
    }
  }

  lemma FencedEnds(env: Env, m: Machine) returns (i: nat)
    requires Sound(env, m.core) && Fenced(m)
    ensures RunToHalt(env, m) == Ticks(env, m, i)
  {
    hide Fenced;
    FencedTick(env, m);
    TickSound(env, m);
    i := if m.core.control.Halted? then 0 else 1;
    assert Ticks(env, m, 1) == Tick(env, m);
  }

  /** After a refused commit the coordinator never calls run_attempt again, no later commit of its own succeeds (its
      revision would move), and execute() returns FAILED or CANCELLED with an error: on every path. */
  lemma RefusedIsFenced(env: Env, m: Machine, n: nat)
    requires Sound(env, m.core) && NotBehind(m) && Propose(env, m.core).commit
    requires !Accepts(Disturb(m.row, m.intrusions), m.revision)
    ensures Sound(env, Tick(env, m).core)
    ensures Ticks(env, Tick(env, m), n).core.executed == Tick(env, m).core.executed
    ensures Ticks(env, Tick(env, m), n).revision == m.revision
    ensures var r := RunToHalt(env, m);
            Ousted(r.core.control) && r.core.hasError && r.core.executed == Tick(env, m).core.executed
  {
    hide Tick, Propose, RunToHalt;
    TickSound(env, m);
    RefusalFences(env, m);
    FencedTicks(env, Tick(env, m), n);
    TicksSameEnd(env, m, 1);
    assert Ticks(env, m, 1) == Tick(env, m);
    var i := FencedEnds(env, Tick(env, m));
    FencedTicks(env, Tick(env, m), i);
    FencedTicks(env, Tick(env, m), i + 1);
    TicksPlus(env, Tick(env, m), i, 1);
    RunEnds(env, m);
    HaltedIsFixed(env, RunToHalt(env, m));
  }

  lemma RunEnds(env: Env, m: Machine)
    requires Sound(env, m.core)
    ensures RunToHalt(env, m).core.control.Halted?
  {
  }

  lemma HaltedIsFixed(env: Env, m: Machine)
    requires Sound(env, m.core) && m.core.control.Halted?
    ensures Ticks(env, m, 1) == m
  {
    hide ApplyMove, Runnable;
    assert Ticks(env, m, 1) == Ticks(env, Tick(env, m), 0);
  }

  /** Without a refusal in its past a coordinator is never behind its row, over any run and any other writers. */
  lemma {:induction false} NeverBehind(env: Env, m: Machine, n: nat)
    requires Sound(env, m.core) && NotBehind(m)
    ensures NotBehind(Ticks(env, m, n))
    decreases n
  {
    hide Tick, NotBehind;
    TickSound(env, m);
    if n > 0 {
      TickNotBehind(env, m);
      NeverBehind(env, Tick(env, m), n - 1);
    }
  }
}
