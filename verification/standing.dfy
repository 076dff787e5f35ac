/** What a coordinator's own commits and outcomes are worth whatever other writers do to its row before each of its
    commits: it stands with its row, or it is out of the run for good. */
module Standing {
  import opened StateModels
  import opened Transitions
  import opened Rows
  import opened Soundness
  import opened Solo
  import opened Refinement
  import opened Frontier
  import opened Guarantees
  import opened Restart
  import opened Loader
  import opened Fencing

  /** All commits so far were accepted: the row is at the coordinator's revision and holds the tree it has in memory. */
  ghost predicate Stands(env: Env, m: Machine, k: nat) {
    Accepts(m.row, m.revision) && m.row.value.nodes == m.core.nodes && AtWork(env, m.core, k)
  }

  ghost predicate StandsOrOut(env: Env, m: Machine, k: nat) {
    Stands(env, m, k) || Fenced(m)
  }

  lemma StandingTick(env: Env, m: Machine, k: nat) returns (k': nat)
    requires Resolvable(env.blueprint) && Sound(env, m.core) && StandsOrOut(env, m, k)
    ensures StandsOrOut(env, Tick(env, m), k')
  {
    k' := k;
    if Fenced(m) {
      hide Tick, Fenced, Stands, Runnable;
      FencedTick(env, m);
    } else if Propose(env, m.core).commit && !Accepts(Disturb(m.row, m.intrusions), m.revision) {
      hide AtWork, Propose, Runnable, Tick;
      RefusalFences(env, m);
    } else {
      k' := StandingOn(env, m, k);
    }
  }

  lemma StandingOn(env: Env, m: Machine, k: nat) returns (k': nat)
    requires Resolvable(env.blueprint) && Sound(env, m.core) && Stands(env, m, k)
    requires Propose(env, m.core).commit ==> Accepts(Disturb(m.row, m.intrusions), m.revision)
    ensures Stands(env, Tick(env, m), k')
  {
    hide AtWork, Propose, Runnable, Next;
    k' := ProposeKeeps(env, m.core, k);
    ProposeKeepsUncommitted(env, m.core);
    NextIsPropose(env, m.core);
  }

  lemma {:induction false} StandingTicks(env: Env, m: Machine, k: nat, n: nat) returns (k': nat)
    requires Resolvable(env.blueprint) && Sound(env, m.core) && StandsOrOut(env, m, k)
    ensures StandsOrOut(env, Ticks(env, m, n), k')
    decreases n
  {
    hide StandsOrOut, Tick, Sound;
    k' := k;
    TickSound(env, m);
    if n > 0 {
      k' := StandingTick(env, m, k);
      k' := StandingTicks(env, Tick(env, m), k', n - 1);
    }
  }

  /** It returned, and not with COMPLETED. */
  predicate EndsShort(c: Core) {
    c.control.Halted? && c.control.ending.Returned? && c.control != Halted(Returned(RunCompleted))
  }

  /** What each way of ending says, of a coordinator that stands or is out. */
  lemma EndingsSay(env: Env, r: Machine, k: nat)
    requires Resolvable(env.blueprint) && StandsOrOut(env, r, k)
    ensures r.core.control == Halted(Returned(RunCompleted)) ==>
              && Accepts(r.row, r.revision) && r.row.value.nodes == r.core.nodes
              && AllSettled(r.core.nodes) && !r.core.hasError
    ensures r.core.control == Halted(Returned(RunPaused)) ==>
              && Accepts(r.row, r.revision) && r.row.value.nodes == r.core.nodes
              && Accepted(env, r.core.nodes) && exists at, step :: PromptOpen(env, r.core.nodes, k, at, step)
    ensures EndsShort(r.core) ==> r.core.hasError
  {
    hide LiveTree, BrokenTree, AllSettled, Accepted;
    if r.core.control == Halted(Returned(RunCompleted)) {
      CompletedIsSettled(env, r.core.nodes);
    } else if r.core.control == Halted(Returned(RunPaused)) {
      PausedIsAccepted(env, r, k);
    }
  }

  /** A run started on a live tree, with any other writers: it returns COMPLETED only with every node and leaf settled
      and no error, and PAUSED only with its prompt open and its tree fit to resume, in both cases with the row still
      at its own revision and holding the tree it has in memory; every other outcome reports an error. */
  lemma OutcomesSound(env: Env, m: Machine, k: nat, n: nat) returns (k': nat)
    requires Resolvable(env.blueprint) && LiveTree(env, m.core.nodes, k) && m.core.control.Starting? && !m.core.hasError
    requires Accepts(m.row, m.revision) && m.row.value.nodes == m.core.nodes
    ensures Sound(env, m.core)
    ensures var r := Ticks(env, m, n);
            && (r.core.control == Halted(Returned(RunCompleted)) ==>
                  && Accepts(r.row, r.revision) && r.row.value.nodes == r.core.nodes
                  && AllSettled(r.core.nodes) && !r.core.hasError)
            && (r.core.control == Halted(Returned(RunPaused)) ==>
                  && Accepts(r.row, r.revision) && r.row.value.nodes == r.core.nodes
                  && Accepted(env, r.core.nodes) && exists at, step :: PromptOpen(env, r.core.nodes, k', at, step))
            && (EndsShort(r.core) ==> r.core.hasError)
  {
    hide Next, Tick, LiveTree, BrokenTree, AllSettled, Runnable, Accepted, Fenced;
    AtWorkSound(env, m.core, k);
    k' := StandingTicks(env, m, k, n);
    EndingsSay(env, Ticks(env, m, n), k');
  }

  /** Every tree a coordinator itself commits with status PAUSED passes both checks of a resume, whatever others do. */
  lemma PausedCommitsResume(env: Env, m: Machine, k: nat, n: nat)
    requires Resolvable(env.blueprint) && Sound(env, m.core) && StandsOrOut(env, m, k)
    ensures var r := Ticks(env, m, n); var e := Propose(env, r.core);
            e.commit && e.status == Some(RunPaused) && Accepts(Disturb(r.row, r.intrusions), r.revision) ==>
              Tick(env, r).row.value.nodes == e.core.nodes && Accepted(env, e.core.nodes)
  {
    var r := Ticks(env, m, n);
    var k1 := StandingTicks(env, m, k, n);
    var e := Propose(env, r.core);
    if e.commit && e.status == Some(RunPaused) && Accepts(Disturb(r.row, r.intrusions), r.revision) {
      FencedWritesNothing(r);
      var k2 := ProposeKeeps(env, r.core, k1);
      hide AtWork, Stands, Fenced, Accepted;
      if !r.core.control.Halted? { ProposeSays(env, r.core); } else { HaltedProposes(env, r.core); }
      hide Propose, Runnable;
      PausedIsAccepted(env, r.(core := e.core), k2);
    }
  }

  lemma FencedWritesNothing(m: Machine)
    requires Accepts(Disturb(m.row, m.intrusions), m.revision)
    ensures !Fenced(m)
  {
    DisturbGrows(m.row, m.intrusions);
  }

  lemma HaltedProposes(env: Env, c: Core)
    requires Sound(env, c) && c.control.Halted?
    ensures !Propose(env, c).commit
  {
    hide ApplyMove, Runnable;
  }

  /** Of a committed tree the two checks of a resume only ask whether anything is left to run. */
  lemma CommittedResumesIff(env: Env, nodes: seq<Node>, k: nat)
    requires Resolvable(env.blueprint) && Guarantees.Committed(env, nodes, k)
    ensures Accepted(env, nodes) <==> !AllTerminated(nodes)
  {
    hide LiveTree, BrokenTree;
    CommittedIsStructured(env, nodes, k);
    PausedRecordedIn(env, nodes, k);
  }
}
