/** One coordinator alone with its row: every commit is accepted, so its whole run is a function of the tree
    it starts from and of the replies it is given. */
module Solo {
  import opened StateModels
  import opened Transitions
  import opened Rows
  import opened Soundness

  function Next(env: Env, c: Core): (r: Core)
    requires Sound(env, c)
    ensures Sound(env, r)
  {
    ProposeSound(env, c);
    Propose(env, c).core
  }

  function Steps(env: Env, c: Core, n: nat): (r: Core)
    requires Sound(env, c)
    ensures Sound(env, r)
    decreases n
  {
    if n == 0 then c else Steps(env, Next(env, c), n - 1)
  }

  /** The core in which the run ends. */
  function Final(env: Env, c: Core): (r: Core)
    requires Sound(env, c)
    ensures Sound(env, r) && r.control.Halted?
    decreases |c.replies|, Rank(c.nodes), ControlRank(c.control)
  {
    if c.control.Halted? then c
    else
      ProposeLowers(env, c);
      Final(env, Next(env, c))
  }

  /** b is on the run of a. */
  ghost predicate Leads(env: Env, a: Core, b: Core) {
    Sound(env, a) && exists n: nat :: Steps(env, a, n) == b
  }

  lemma LeadsOne(env: Env, a: Core)
    requires Sound(env, a)
    ensures Leads(env, a, a) && Leads(env, a, Next(env, a))
  {
    assert Steps(env, a, 0) == a;
    assert Steps(env, Next(env, a), 0) == Next(env, a);
    assert Steps(env, a, 1) == Next(env, a);
  }

  lemma {:induction false} StepsPlus(env: Env, a: Core, i: nat, j: nat)
    requires Sound(env, a)
    ensures Steps(env, Steps(env, a, i), j) == Steps(env, a, i + j)
    decreases i
  {
    hide Next;
    if i > 0 {
      var b := Next(env, a);
      StepsPlus(env, b, i - 1, j);
      assert Steps(env, a, i) == Steps(env, b, i - 1);
      assert Steps(env, a, i + j) == Steps(env, b, i + j - 1);
    }
  }

  lemma LeadsTrans(env: Env, a: Core, b: Core, c: Core)
    requires Leads(env, a, b) && Leads(env, b, c)
    ensures Leads(env, a, c)
  {
    var i: nat :| Steps(env, a, i) == b;
    var j: nat :| Steps(env, b, j) == c;
    StepsPlus(env, a, i, j);
  }

  lemma {:induction false} StepsSameFinal(env: Env, a: Core, n: nat)
    requires Sound(env, a)
    ensures Final(env, Steps(env, a, n)) == Final(env, a)
    decreases n
  {
    hide Next, Runnable, Rank, ControlRank;
    if n > 0 {
      if a.control.Halted? { assert Next(env, a) == a by { HaltedKeeps(env, a); } }
      StepsSameFinal(env, Next(env, a), n - 1);
    }
  }

  lemma HaltedKeeps(env: Env, a: Core)
    requires Sound(env, a) && a.control.Halted?
    ensures Next(env, a) == a
  {
    hide ApplyMove, Runnable;
  }

  lemma LeadsFinal(env: Env, a: Core, b: Core)
    requires Leads(env, a, b)
    ensures Sound(env, b) && Final(env, a) == Final(env, b)
    ensures b.control.Halted? ==> b == Final(env, a)
  {
    var n: nat :| Steps(env, a, n) == b;
    StepsSameFinal(env, a, n);
  }

  /** The run a process makes of a tree it loads. */
  function Loaded(nodes: seq<Node>, replies: seq<Reply>): Core {
    Core(nodes, Starting, replies, [], false)
  }

  /** A machine whose row holds its own revision and is left alone by everyone else. */
  predicate Alone(m: Machine) {
    m.intrusions == [] && Accepts(m.row, m.revision)
  }

  /** Alone, the machine with its row makes exactly the solo run, and after each commit the row holds the tree
      the coordinator has in memory. */
  lemma {:induction false} AloneTicks(env: Env, m: Machine, n: nat)
    requires Sound(env, m.core) && Alone(m) && m.row.value.nodes == m.core.nodes
    ensures Alone(Ticks(env, m, n)) && Ticks(env, m, n).core == Steps(env, m.core, n)
    ensures Ticks(env, m, n).row.value.nodes == Steps(env, m.core, n).nodes
    decreases n
  {
    TickSound(env, m);
    if n > 0 {
      ProposeKeepsUncommitted(env, m.core);
      AloneTicks(env, Tick(env, m), n - 1);
    }
  }

  lemma RecoverNothing(nodes: seq<Node>)
    requires !HasOpenAttempt(nodes)
    ensures Recover(nodes) == nodes
  {
    forall i | 0 <= i < |nodes|
      ensures RecoverNode(nodes[i]) == nodes[i]
    {
      assert !NodeHasOpenAttempt(nodes[i]);
      if nodes[i].LoopNode? {
        var its := nodes[i].iterations;
        forall j | 0 <= j < |its|
          ensures RecoverIteration(its[j]) == its[j]
        {
          assert RecoverLeaves(its[j].steps) == its[j].steps;
        }
        assert RecoverIterations(its) == its;
      }
    }
  }

  lemma RunAttemptCommits(env: Env, c: Core, at: Target, step: StepDef)
    requires LeafAt(c.nodes, at) && GetLeaf(c.nodes, at).attempts != []
    ensures !RunAttempt(env, c, at, step).commit ==> RunAttempt(env, c, at, step).core.nodes == c.nodes
  {
    if c.replies != [] && !c.replies[0].Interrupt? {
      var leaf := RecordResult(GetLeaf(c.nodes, at), c.replies[0].result);
      assert Last(leaf.attempts).result.Some?;
      var c2 := c.(executed := c.executed + [ExecutionOf(c.nodes, at, step)], replies := c.replies[1..]);
      assert GetLeaf(SetLeaf(c.nodes, at, leaf), at) == leaf;
      assert Settle(env, c2, at, step, c.replies[0].result).commit;
    }
  }

  lemma SlotKeepsUncommitted(env: Env, c: Core, at: Target, step: StepDef)
    requires LeafAt(c.nodes, at) && RunnableLeaf(GetLeaf(c.nodes, at)) && !Terminal(GetLeaf(c.nodes, at).state)
    ensures !AdvanceSlot(env, c, at, step).commit ==> AdvanceSlot(env, c, at, step).core.nodes == c.nodes
  {
    if GetLeaf(c.nodes, at).state.Running? {
      hide RunAttempt;
      RunAttemptCommits(env, c, at, step);
    } else if GetLeaf(c.nodes, at).state.Paused? {
      hide RunAttempt;
      assert !Gate(env, c, at, step).commit ==> Gate(env, c, at, step).core.nodes == c.nodes;
    } else {
      hide RunAttempt, Gate;
    }
  }

  /** A proposal that commits nothing changes no node, so what is in memory between proposals is durable. */
  lemma ProposeKeepsUncommitted(env: Env, c: Core)
    requires Sound(env, c)
    ensures !Propose(env, c).commit ==> Propose(env, c).core.nodes == c.nodes
  {
    hide AdvanceSlot, SelectMove, Recover;
    if c.control.Starting? {
      hide ApplyMove;
      if !HasOpenAttempt(c.nodes) { RecoverNothing(c.nodes); }
    } else if c.control.Ready? {
      var move := SelectMove(env.blueprint, c.nodes);
      if move.RunSlot? {
        SlotSelected(env, c.nodes, move.at, move.step);
        SlotKeepsUncommitted(env, c, move.at, move.step);
      }
    } else {
      hide ApplyMove;
    }
  }
}
