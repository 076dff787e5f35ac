/** Pausing a run and resuming it, end to end: the run with the pause is the run that was answered at once. */
module Pauses {
  import opened StateModels
  import opened LoopPolicy
  import opened Transitions
  import opened Soundness
  import opened Solo
  import opened Refinement
  import opened Frontier
  import opened Restart
  import opened Loader

  function Paused(d: Core): Core
    requires d.replies != []
  {
    d.(control := Halted(Returned(RunPaused)), replies := d.replies[1..], hasError := true)
  }

  /** A run only pauses by interrupting an open prompt. */
  lemma OnlyPromptsPause(env: Env, c: Core)
    requires Sound(env, c) && !c.control.Halted? && Next(env, c).control == Halted(Returned(RunPaused))
    ensures c.control.Prompting? && c.replies != [] && c.replies[0].Interrupt? && Next(env, c) == Paused(c)
  {
    hide Next, SelectMove, Runnable, AdvanceSlot, UntilHolds, SetLeaf;
    NextIsPropose(env, c);
    if c.control.Ready? {
      var move := SelectMove(env.blueprint, c.nodes);
      if move.RunSlot? {
        SlotSelected(env, c.nodes, move.at, move.step);
        SlotStatus(env, c, move.at, move.step);
      }
    } else {
      hide ApplyMove;
    }
  }

  /** Where a run that ends paused was interrupted. */
  lemma {:induction false} PausedAt(env: Env, c: Core, k: nat) returns (n: nat, k': nat)
    requires Resolvable(env.blueprint) && AtWork(env, c, k) && Sound(env, c) && !c.control.Halted?
    requires Final(env, c).control == Halted(Returned(RunPaused))
    ensures var d := Steps(env, c, n);
            && AtWork(env, d, k') && d.control.Prompting? && d.replies != [] && d.replies[0].Interrupt?
            && Final(env, c) == Paused(d)
    decreases |c.replies|, Rank(c.nodes), ControlRank(c.control)
  {
    hide Next, AtWork, Runnable, Rank, ControlRank;
    var c1 := Next(env, c);
    NextBelow(env, c);
    FinalUnfolds(env, c);
    if c1.control.Halted? {
      OnlyPromptsPause(env, c);
      assert Steps(env, c, 0) == c;
      return 0, k;
    }
    k' := ProposeKeeps(env, c, k);
    n, k' := PausedAt(env, c1, k');
    assert Steps(env, c, n + 1) == Steps(env, c1, n);
    n := n + 1;
  }

  /** A run whose last reply interrupts a prompt, and the run resumed from its tree with the answers that come later,
      together are the run given all the answers at once: the same calls, the same tree, the same outcome. */
  lemma PausedRunResumes(env: Env, nodes: seq<Node>, k: nat, answered: seq<Reply>, later: seq<Reply>)
    requires Resolvable(env.blueprint) && LiveTree(env, nodes, k)
    requires Sound(env, Loaded(nodes, answered + [Interrupt])) && Sound(env, Loaded(nodes, answered + later))
    requires var paused := Final(env, Loaded(nodes, answered + [Interrupt]));
             paused.control == Halted(Returned(RunPaused)) && paused.replies == []
    ensures var paused := Final(env, Loaded(nodes, answered + [Interrupt]));
            && Sound(env, Loaded(paused.nodes, later))
            && (var resumed := Final(env, Loaded(paused.nodes, later));
                Final(env, Loaded(nodes, answered + later)) == Having(resumed, paused.executed + resumed.executed))
  {
    hide Next, AtWork, Runnable, Final, LiveTree, Steps;
    var c := Loaded(nodes, answered + [Interrupt]);
    LoadedAtWork(env, nodes, answered + [Interrupt], k);
    var n, k1 := PausedAt(env, c, k);
    var d := Steps(env, c, n);
    assert d.replies == [d.replies[0]] + d.replies[1..];
    var u := StepsSame(env, c, n, later, []);
    assert c.replies[..u] == answered by { LastRead(answered, c.replies, u, d.replies); }
    var e := Having(Given(d, later), [] + d.executed[0..]);
    assert d.executed[0..] == d.executed && [] + d.executed == d.executed && e == Given(d, later);
    var a := Loaded(nodes, answered + later);
    assert Having(Given(c, c.replies[..u] + later), []) == a;
    StepsSameFinal(env, a, n);
    PauseIsTransparent(env, d, k1, later);
  }

  lemma LastRead(answered: seq<Reply>, replies: seq<Reply>, u: nat, rest: seq<Reply>)
    requires replies == answered + [Interrupt] && u <= |replies| && rest == replies[u..] && |rest| == 1
    ensures replies[..u] == answered
  {
  }

  /** A run that ended paused left a tree that a resume accepts and can run. */
  lemma PausedTreeResumes(env: Env, nodes: seq<Node>, k: nat, rs: seq<Reply>)
    requires Resolvable(env.blueprint) && LiveTree(env, nodes, k) && Sound(env, Loaded(nodes, rs))
    requires Final(env, Loaded(nodes, rs)).control == Halted(Returned(RunPaused))
    ensures var tree := Final(env, Loaded(nodes, rs)).nodes; Accepted(env, tree) && Runnable(env.blueprint, tree)
  {
    hide Next, AtWork, Runnable, Final, LiveTree, Accepted;
    LoadedAtWork(env, nodes, rs, k);
    var n, k1 := PausedAt(env, Loaded(nodes, rs), k);
    var d := Steps(env, Loaded(nodes, rs), n);
    PausedTree(env, d, k1);
  }

  lemma PausedTree(env: Env, d: Core, k: nat)
    requires Resolvable(env.blueprint) && AtWork(env, d, k) && d.control.Prompting?
    ensures Accepted(env, d.nodes) && Runnable(env.blueprint, d.nodes)
  {
    AtWorkSound(env, d, k);
    hide LiveTree, Accepted;
    var step :| PromptOpen(env, d.nodes, k, d.control.at, step);
    CommittedIsStructured(env, d.nodes, k);
    LiveIsResumable(env, d.nodes, k);
    assert Accepted(env, d.nodes) by { TreeAccepted(env, d.nodes); }
  }

  lemma TreeAccepted(env: Env, nodes: seq<Node>)
    requires !AllTerminated(nodes) && AllPausedRecorded(nodes) && StructureErrors(nodes, LoopTable(env.blueprint)) == []
    ensures Accepted(env, nodes)
  {
  }
}
