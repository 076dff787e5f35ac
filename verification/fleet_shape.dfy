/** Trees committed by several coordinators in turn: as long as each one loads a tree that a run can go on from,
    every tree the row ever holds has a frontier, so all that holds of committed trees holds of it. */
module FleetShape {
  import opened StateModels
  import opened Transitions
  import opened Rows
  import opened Refinement
  import opened Frontier
  import opened Guarantees
  import opened Fleet
  import Restart

  /** The same blueprint and conditions, whoever is or is not there to ask. */
  ghost predicate SameRun(a: Env, b: Env) {
    a.blueprint == b.blueprint && a.holds == b.holds
  }

  // ---- the shape does not depend on who drives the run ----

  lemma SameClosed(a: Env, b: Env, loop: LoopDef, it: Iteration, number: nat)
    requires SameRun(a, b)
    ensures ClosedIteration(a, loop, it, number) <==> ClosedIteration(b, loop, it, number)
  {
  }

  lemma SameHead(a: Env, b: Env, loop: LoopDef, n: Node)
    requires SameRun(a, b) && LoopHead(a, loop, n)
    ensures LoopHead(b, loop, n)
  {
    hide ClosedIteration;
    forall i | 0 <= i < |n.iterations| - 1
      ensures ClosedIteration(b, loop, n.iterations[i], i + 1) && n.iterations[i].untilPassed == Some(false)
    {
      SameClosed(a, b, loop, n.iterations[i], i + 1);
    }
  }

  lemma SameLoopClosed(a: Env, b: Env, loop: LoopDef, n: Node)
    requires SameRun(a, b) && LoopClosed(a, loop, n)
    ensures LoopClosed(b, loop, n) && (Exhausted(a, loop, n) ==> Exhausted(b, loop, n))
  {
    SameHead(a, b, loop, n);
    SameClosed(a, b, loop, Last(n.iterations), |n.iterations|);
    hide LoopHead, ClosedIteration;
  }

  lemma SameNode(a: Env, b: Env, d: Definition, n: Node)
    requires SameRun(a, b)
    ensures DoneNode(a, d, n) ==> DoneNode(b, d, n)
    ensures LiveNode(a, d, n) ==> LiveNode(b, d, n)
    ensures BrokenNode(a, d, n) ==> BrokenNode(b, d, n)
  {
    hide LoopHead, ClosedIteration, RunningIteration, BrokenIteration;
    if d.LoopItem? {
      var loop := d.loop;
      if LoopHead(a, loop, n) { SameHead(a, b, loop, n); }
      if LoopClosed(a, loop, n) { SameLoopClosed(a, b, loop, n); }
      if LiveNode(a, d, n) && n != PlanNode(d) && !LoopClosed(a, loop, n) {
        var j :| 0 <= j <= |loop.body| && LoopRunningAt(a, loop, n, j);
        assert LoopRunningAt(b, loop, n, j);
      }
      if j :| 0 <= j < |loop.body| && LoopBrokenAt(a, loop, n, j) {
        assert LoopBrokenAt(b, loop, n, j);
      }
    }
  }

  lemma SameTree(a: Env, b: Env, nodes: seq<Node>, k: nat)
    requires SameRun(a, b)
    ensures LiveTree(a, nodes, k) ==> LiveTree(b, nodes, k)
    ensures Committed(a, nodes, k) ==> Committed(b, nodes, k)
  {
    hide DoneNode, LiveNode, BrokenNode;
    if Committed(a, nodes, k) {
      forall i | 0 <= i < k
        ensures DoneNode(b, b.blueprint[i], nodes[i])
      {
        assert DoneNode(a, a.blueprint[i], nodes[i]);
        SameNode(a, b, a.blueprint[i], nodes[i]);
      }
      if k < |nodes| { SameNode(a, b, a.blueprint[k], nodes[k]); }
    }
  }

  // ---- the invariant ----

  ghost predicate Shaped(env: Env, nodes: seq<Node>) {
    exists k :: Committed(env, nodes, k)
  }

  ghost predicate Drives(env: Env, w: Worker) {
    SameRun(w.env, env) && exists k :: AtWork(w.env, w.core, k)
  }

  /** The last tree committed has a frontier, and whoever is up to date with the row stands at it. */
  ghost predicate InShape(env: Env, f: Fleet) {
    && Shaped(env, f.tree)
    && forall i :: 0 <= i < |f.workers| && f.row.Some? && f.workers[i].revision == f.row.value.revision ==>
         Drives(env, f.workers[i])
  }

  /** Coordinators of this run only load trees that it can go on from, as the status and the checks of a resume are to
      ensure. */
  ghost predicate LoadsLive(env: Env, f: Fleet, e: Event)
    requires Enabled(f, e)
  {
    e.Load? ==> SameRun(e.env, env) && exists k :: LiveTree(env, f.row.value.nodes, k)
  }

  ghost predicate AllLoadLive(env: Env, f: Fleet, events: seq<Event>)
    requires CanHappen(f, events)
    decreases |events|
  {
    events != [] ==> LoadsLive(env, f, events[0]) && AllLoadLive(env, After(f, events[0]), events[1..])
  }

  lemma DrivesOn(env: Env, w: Worker, c1: Core)
    requires Resolvable(env.blueprint) && Drives(env, w) && Sound(w.env, w.core) && c1 == Propose(w.env, w.core).core
    ensures Drives(env, w.(core := c1, proposal := None)) && Shaped(env, c1.nodes)
    ensures forall revision: nat, proposal: Option<Effect> :: Drives(env, Worker(w.env, c1, revision, proposal))
  {
    hide AtWork, Propose, Runnable, Committed;
    var k :| AtWork(w.env, w.core, k);
    var k1 := ProposeKeeps(w.env, w.core, k);
    Restart.NextIsPropose(w.env, w.core);
    AtWorkCommits(w.env, c1, k1);
    SameTree(w.env, env, c1.nodes, k1);
  }

  lemma LoadShapes(env: Env, f: Fleet, loader: Env, replies: seq<Reply>)
    requires Inv(f) && Enabled(f, Load(loader, replies)) && InShape(env, f) && LoadsLive(env, f, Load(loader, replies))
    ensures InShape(env, After(f, Load(loader, replies)))
  {
    hide RunningOpen, Owns, InStep, AtWork, Committed, LiveTree, Runnable;
    var k :| LiveTree(env, f.row.value.nodes, k);
    SameTree(env, loader, f.row.value.nodes, k);
    LoadedAtWork(loader, f.row.value.nodes, replies, k);
  }

  lemma WorkShapes(env: Env, f: Fleet, i: nat)
    requires Resolvable(env.blueprint) && Inv(f) && Enabled(f, Work(i)) && InShape(env, f)
    ensures InShape(env, After(f, Work(i)))
  {
    hide RunningOpen, Owns, InStep, AtWork, Committed, Propose, Runs, Sound;
    var w := f.workers[i];
    if f.row.Some? && w.revision == f.row.value.revision { DrivesOn(env, w, Propose(w.env, w.core).core); }
  }

  /** Only the coordinator whose commit was accepted is up to date with the row it has moved on. */
  lemma CommitShapes(env: Env, f: Fleet, i: nat)
    requires Resolvable(env.blueprint) && Inv(f) && Enabled(f, Commit(i)) && InShape(env, f)
    ensures InShape(env, After(f, Commit(i)))
  {
    hide RunningOpen, Owns, AtWork, Committed, Propose, Opens, Sound;
    var w := f.workers[i];
    if Accepts(f.row, w.revision) { DrivesOn(env, w, Propose(w.env, w.core).core); }
    var g := After(f, Commit(i));
    forall j | 0 <= j < |g.workers| && g.row.Some? && g.workers[j].revision == g.row.value.revision
      ensures Drives(env, g.workers[j])
    {
      assert InStep(f, j);
    }
  }

  lemma EventShapes(env: Env, f: Fleet, e: Event)
    requires Resolvable(env.blueprint) && Inv(f) && Enabled(f, e) && InShape(env, f) && LoadsLive(env, f, e)
    ensures InShape(env, After(f, e))
  {
    match e
    case Load(loader, replies) => LoadShapes(env, f, loader, replies);
    case Work(i) => WorkShapes(env, f, i);
    case Commit(i) => CommitShapes(env, f, i);
    case _ => RowShapes(env, f, e);
  }

  lemma RowShapes(env: Env, f: Fleet, e: Event)
    requires Inv(f) && InShape(env, f) && (e.Finish? || e.SetStatus? || e.DeleteRun?)
    ensures InShape(env, After(f, e))
  {
    hide RunningOpen, Owns, Committed, Drives;
    forall j | 0 <= j < |f.workers| && After(f, e).row.Some? && f.workers[j].revision == After(f, e).row.value.revision
      ensures Drives(env, f.workers[j])
    {
      assert InStep(f, j);
    }
  }

  lemma {:induction false} HistoryShapes(env: Env, f: Fleet, events: seq<Event>)
    requires Resolvable(env.blueprint) && Inv(f) && CanHappen(f, events) && InShape(env, f)
    requires AllLoadLive(env, f, events)
    ensures InShape(env, AfterAll(f, events))
    decreases |events|
  {
    hide Inv, Enabled, After, InShape, LoadsLive;
    if events != [] {
      EventKeeps(f, events[0]);
      EventShapes(env, f, events[0]);
      HistoryShapes(env, After(f, events[0]), events[1..]);
    }
  }

  /** Whatever coordinators of one run do in whatever order, while each loads a tree the run can go on from: the last
      tree committed has a frontier, so at most one of its leaves is in progress, its loops are well formed and it
      passes the structure check; and a coordinator that is up to date with the row stands at that frontier. */
  lemma TreesKeepShape(env: Env, row: Row, k: nat, events: seq<Event>)
    requires Resolvable(env.blueprint) && LiveTree(env, row.nodes, k)
    requires CanHappen(Unloaded(row), events) && AllLoadLive(env, Unloaded(row), events)
    ensures var f := AfterAll(Unloaded(row), events);
            && (exists k' :: Committed(env, f.tree, k'))
            && (f.row.Some? ==> f.row.value.nodes == f.tree)
            && (forall i :: 0 <= i < |f.workers| && f.row.Some? && f.workers[i].revision == f.row.value.revision ==>
                  f.workers[i].core.nodes == f.tree && exists k' :: AtWork(f.workers[i].env, f.workers[i].core, k'))
  {
    hide AtWork, LiveTree, RunningOpen, Owns, BrokenTree, Enabled;
    CommittedTreesAreOpen(env, row.nodes, k);
    var f0 := Unloaded(row);
    assert Inv(f0) && InShape(env, f0);
    hide Committed;
    HistoryKeeps(f0, events);
    HistoryShapes(env, f0, events);
    var f := AfterAll(f0, events);
    forall i | 0 <= i < |f.workers| && f.row.Some? && f.workers[i].revision == f.row.value.revision
      ensures f.workers[i].core.nodes == f.tree && exists k' :: AtWork(f.workers[i].env, f.workers[i].core, k')
    {
      assert InStep(f, i) && Drives(env, f.workers[i]);
    }
  }
}
