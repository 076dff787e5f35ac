/** Any number of coordinators on one run row, in any interleaving: exclusivity rests on the revision alone. A process
    that dies is one that takes no further step. */
module Fleet {
  import opened StateModels
  import opened LoopPolicy
  import opened Projection
  import opened Transitions
  import opened Rows
  import opened Soundness
  import opened Solo
  import opened Moves
  import opened Guarantees
  import opened Fencing
  import opened Bounds
  import Loader

  /** One execute(): its proposal is what it will commit next, computed before others may write again. */
  datatype Worker = Worker(env: Env, core: Core, revision: nat, proposal: Option<Effect>)

  /** An attempt record, by its place and position among the attempts there. */
  datatype Key = Key(place: Place, attempt: nat)

  datatype Call = Call(worker: nat, key: Key)

  /** tree is what was committed last, kept when the row is deleted; begun are the attempts durably begun, and
      calls the calls of run_attempt, each with the coordinator that made it. */
  datatype Fleet = Fleet(row: Option<Row>, tree: seq<Node>, workers: seq<Worker>, begun: set<Call>, calls: seq<Call>)

  datatype Event =
    | Load(env: Env, replies: seq<Reply>)  // a coordinator loads the row
    | Work(worker: nat)                    // it makes its next external call, if any, and prepares a commit
    | Commit(worker: nat)                  // its prepared commit reaches the row
    | Finish(status: RunStatus)            // _finish_run: reload, save with this status
    | SetStatus(status: RunStatus)         // a status-only update of the row
    | DeleteRun

  // ---- where a step acts ----

  /** The leaf whose slot or prompt the coordinator is at. */
  function SlotOf(env: Env, c: Core): Option<Target>
    requires Sound(env, c)
  {
    match c.control
    case Prompting(at) => Some(at)
    case Ready =>
      var move := SelectMove(env.blueprint, c.nodes);
      if move.RunSlot? then Some(move.at) else None
    case _ => None
  }

  /** The attempt this step begins, when it begins one. */
  function Opens(env: Env, c: Core): Option<Key>
    requires Sound(env, c)
  {
    var at := SlotOf(env, c);
    var after := Propose(env, c).core.nodes;
    if at.Some? && LeafAt(c.nodes, at.value) && LeafAt(after, at.value)
       && |GetLeaf(after, at.value).attempts| > |GetLeaf(c.nodes, at.value).attempts| then
      Some(Key(PlaceOf(c.nodes, at.value), |GetLeaf(c.nodes, at.value).attempts|))
    else None
  }

  /** The attempt this step runs: the last one of the selected leaf, when run_attempt is called. */
  function Runs(env: Env, c: Core): Option<Key>
    requires Sound(env, c)
  {
    var at := SlotOf(env, c);
    if |Propose(env, c).core.executed| > |c.executed| && at.Some? && LeafAt(c.nodes, at.value)
       && GetLeaf(c.nodes, at.value).attempts != [] then
      Some(Key(PlaceOf(c.nodes, at.value), |GetLeaf(c.nodes, at.value).attempts| - 1))
    else None
  }

  predicate Able(w: Worker) {
    Sound(w.env, w.core) && (w.proposal.Some? ==> w.proposal.value == Propose(w.env, w.core))
  }

  predicate Enabled(f: Fleet, e: Event) {
    match e
    case Load(env, _) => f.row.Some? && Runnable(env.blueprint, f.row.value.nodes)
    case Work(i) =>
      i < |f.workers| && Able(f.workers[i]) && f.workers[i].proposal.None? && !f.workers[i].core.control.Halted?
    case Commit(i) => i < |f.workers| && Able(f.workers[i]) && f.workers[i].proposal.Some?
    case _ => true
  }

  function Worked(f: Fleet, i: nat): Fleet
    requires Enabled(f, Work(i))
  {
    var w := f.workers[i];
    var e := Propose(w.env, w.core);
    var key := Runs(w.env, w.core);
    var w1 := if e.commit then w.(proposal := Some(e)) else w.(core := e.core);
    f.(workers := f.workers[i := w1], calls := if key.Some? then f.calls + [Call(i, key.value)] else f.calls)
  }

  function CommitTried(f: Fleet, i: nat): Fleet
    requires Enabled(f, Commit(i))
  {
    var w := f.workers[i];
    var e := w.proposal.value;
    if Accepts(f.row, w.revision) then
      var key := Opens(w.env, w.core);
      f.(row := Written(f.row, w.revision, e.core.nodes, e.status), tree := e.core.nodes,
         workers := f.workers[i := Worker(w.env, e.core, w.revision + 1, None)],
         begun := if key.Some? then f.begun + {Call(i, key.value)} else f.begun)
    else
      f.(workers := f.workers[i := w.(core := e.core.(control := e.refused, hasError := true), proposal := None)])
  }

  function After(f: Fleet, e: Event): Fleet
    requires Enabled(f, e)
  {
    match e
    case Load(env, replies) =>
      f.(workers := f.workers + [Worker(env, Loaded(f.row.value.nodes, replies), f.row.value.revision, None)])
    case Work(i) => Worked(f, i)
    case Commit(i) => CommitTried(f, i)
    case Finish(status) =>
      if f.row.None? then f
      else f.(row := Some(Row(f.row.value.revision + 1, f.row.value.nodes, status)))
    case SetStatus(status) => if f.row.None? then f else f.(row := Some(f.row.value.(status := status)))
    case DeleteRun => f.(row := None)
  }

  // ---- the invariant ----

  ghost predicate RunningOpen(nodes: seq<Node>) {
    forall p: Place :: HasLeaf(nodes, p) && LeafOf(nodes, p).state.Running? ==> OpenAttempt(LeafOf(nodes, p))
  }

  predicate Recorded(nodes: seq<Node>, key: Key) {
    HasLeaf(nodes, key.place) && key.attempt < |LeafOf(nodes, key.place).attempts|
  }

  function LastKey(nodes: seq<Node>, p: Place): Key
    requires HasLeaf(nodes, p) && LeafOf(nodes, p).attempts != []
  {
    Key(p, |LeafOf(nodes, p).attempts| - 1)
  }

  predicate Called(f: Fleet, key: Key) {
    exists c :: 0 <= c < |f.calls| && f.calls[c].key == key
  }

  /** The key a worker with a prepared commit has just called. */
  predicate JustCalled(w: Worker, key: Key) {
    Able(w) && w.proposal.Some? && Runs(w.env, w.core) == Some(key)
  }

  /** A worker still in the run holds as running only attempts it opened itself, and has not run them yet. */
  ghost predicate Owns(f: Fleet, i: nat)
    requires i < |f.workers|
  {
    var w := f.workers[i];
    w.core.control.Ready? || w.core.control.Prompting? ==>
      forall p: Place :: HasLeaf(w.core.nodes, p) && LeafOf(w.core.nodes, p).state.Running? ==>
        && OpenAttempt(LeafOf(w.core.nodes, p))
        && Call(i, LastKey(w.core.nodes, p)) in f.begun
        && (Called(f, LastKey(w.core.nodes, p)) ==> JustCalled(w, LastKey(w.core.nodes, p)))
  }

  ghost predicate InStep(f: Fleet, i: nat)
    requires i < |f.workers|
  {
    var w := f.workers[i];
    && Able(w)
    && (w.proposal.Some? ==> w.proposal.value.commit && !w.core.control.Halted?)
    && (w.core.control.Starting? ==> RunningOpen(w.core.nodes))
    && (f.row.Some? ==> w.revision <= f.row.value.revision)
    && (f.row.Some? && w.revision == f.row.value.revision ==> w.core.nodes == f.tree)
  }

  /** Attempts are opened once each, only by commits, and only opened attempts are run, once each. */
  ghost predicate Inv(f: Fleet) {
    && (f.row.Some? ==> f.row.value.nodes == f.tree) && RunningOpen(f.tree)
    && (forall o :: o in f.begun ==> Recorded(f.tree, o.key))
    && (forall a, b :: a in f.begun && b in f.begun && a.key == b.key ==> a == b)
    && (forall c :: 0 <= c < |f.calls| ==> f.calls[c] in f.begun)
    && (forall c, d :: 0 <= c < d < |f.calls| ==> f.calls[c].key != f.calls[d].key)
    && (forall i :: 0 <= i < |f.workers| ==> InStep(f, i) && Owns(f, i))
  }

  // ---- leaves of a changed tree ----

  lemma ChangedRunningOpen(nodes: seq<Node>, change: Change)
    requires Allowed(nodes, change) && RunningOpen(nodes)
    ensures RunningOpen(Changed(nodes, change))
  {
    hide Changed, HasLeaf, LeafOf;
    var b := Changed(nodes, change);
    forall p: Place | HasLeaf(b, p) && LeafOf(b, p).state.Running?
      ensures OpenAttempt(LeafOf(b, p))
    {
      ChangedLeaf(nodes, change, p);
    }
  }

  // ---- facts about one step ----

  /** run_attempt is called exactly when the log records it, once, on the open leaf of the selected slot. */
  lemma RunsRunning(env: Env, c: Core)
    requires Sound(env, c)
    ensures |Propose(env, c).core.executed| > |c.executed| <==> Runs(env, c).Some?
    ensures |Propose(env, c).core.executed| <= |c.executed| + 1
    ensures Runs(env, c).Some? ==>
              && c.control.Ready? && SlotOf(env, c).Some? && LeafAt(c.nodes, SlotOf(env, c).value)
              && var p := PlaceOf(c.nodes, SlotOf(env, c).value);
                 LeafOf(c.nodes, p).state.Running? && LeafOf(c.nodes, p).attempts != []
                 && Runs(env, c) == Some(LastKey(c.nodes, p))
  {
    hide Propose, SelectMove, Runnable;
    ExecutedLength(env, c);
    if c.control.Ready? && SelectMove(env.blueprint, c.nodes).RunSlot? {
      var move := SelectMove(env.blueprint, c.nodes);
      SlotSelected(env, c.nodes, move.at, move.step);
    }
  }

  lemma ExecutedLength(env: Env, c: Core)
    requires Sound(env, c)
    ensures |c.executed| <= |Propose(env, c).core.executed| <= |c.executed| + 1
    ensures |Propose(env, c).core.executed| > |c.executed| <==>
              c.control.Ready? && SelectMove(env.blueprint, c.nodes).RunSlot?
              && LeafAt(c.nodes, SelectMove(env.blueprint, c.nodes).at)
              && GetLeaf(c.nodes, SelectMove(env.blueprint, c.nodes).at).state.Running?
  {
    if c.control.Ready? {
      var move := SelectMove(env.blueprint, c.nodes);
      if move.RunSlot? {
        SlotSelected(env, c.nodes, move.at, move.step);
        hide SelectMove, Runnable, AdvanceSlot;
        SlotExecuted(env, c, move.at, move.step);
      } else {
        LoopExecutes(env, c);
        hide Runnable, AdvanceSlot, ApplyLoopDecision, OpenIteration, Propose;
      }
    } else {
      hide ApplyMove, Runnable, SelectMove;
    }
  }

  lemma LoopExecutes(env: Env, c: Core)
    requires Sound(env, c) && c.control.Ready? && !SelectMove(env.blueprint, c.nodes).RunSlot?
    ensures Propose(env, c).core.executed == c.executed
  {
    hide UntilHolds, AdvanceSlot, IterationResults, Runnable, SelectMove;
  }

  /** After a committed call the leaf is no longer running. */
  lemma RunsSettles(env: Env, c: Core)
    requires Sound(env, c) && Runs(env, c).Some? && Propose(env, c).commit
    ensures var at := SlotOf(env, c).value; var after := Propose(env, c).core.nodes;
            LeafAt(after, at) && !GetLeaf(after, at).state.Running?
  {
    hide UntilHolds;
    RunsRunning(env, c);
    var move := SelectMove(env.blueprint, c.nodes);
    SlotSelected(env, c.nodes, move.at, move.step);
    hide SelectMove, Runnable;
    SlotLeaves(env, c, move.at, move.step);
    Loader.SlotCommitsAlive(env, c, move.at, move.step);
    hide AdvanceSlot, Runs;
  }

  /** An attempt is begun exactly when the change adds one to the leaf at the slot. */
  lemma OpensIs(env: Env, c: Core, change: Change)
    requires Sound(env, c) && Allowed(c.nodes, change) && Propose(env, c).core.nodes == Changed(c.nodes, change)
    requires Placed(env, c, change)
    ensures change.LeafChange? && |change.leaf.attempts| > |GetLeaf(c.nodes, change.at).attempts| ==>
              Opens(env, c) == Some(Key(PlaceOf(c.nodes, change.at), |GetLeaf(c.nodes, change.at).attempts|))
    ensures !change.LeafChange? || |change.leaf.attempts| == |GetLeaf(c.nodes, change.at).attempts| ==>
              Opens(env, c).None?
    ensures change.LeafChange? ==> SlotOf(env, c) == Some(change.at)
  {
    hide Propose, Runnable, SelectMove;
  }

  /** Without a commit a coordinator goes on only from recovery with nothing to recover. */
  lemma UncommittedControl(env: Env, c: Core)
    requires Sound(env, c) && !c.control.Halted? && !Propose(env, c).commit
    ensures Propose(env, c).core.nodes == c.nodes
    ensures var control := Propose(env, c).core.control;
            && !control.Prompting? && !control.Starting?
            && (control.Ready? ==> c.control.Starting? && !HasOpenAttempt(c.nodes))
  {
    hide UntilHolds, Recover, SelectMove, AdvanceSlot;
    ProposeKeepsUncommitted(env, c);
    match c.control
    case Ready =>
      var move := SelectMove(env.blueprint, c.nodes);
      if move.RunSlot? {
        SlotSelected(env, c.nodes, move.at, move.step);
        hide Runnable;
        SlotUncommitted(env, c, move.at, move.step);
      } else {
        hide Runnable;
      }
    case _ => hide ApplyMove, Runnable;
  }

  lemma SlotUncommitted(env: Env, c: Core, at: Target, step: StepDef)
    requires LeafAt(c.nodes, at) && RunnableLeaf(GetLeaf(c.nodes, at)) && !Terminal(GetLeaf(c.nodes, at).state)
    requires !AdvanceSlot(env, c, at, step).commit
    ensures var control := AdvanceSlot(env, c, at, step).core.control; control.Halted? || control.FailingLoop?
  {
    hide SetLeaf, Gate;
    var leaf := GetLeaf(c.nodes, at);
    GateUncommitted(env, c, at, step);
    if leaf.state.Running? && c.replies != [] && !c.replies[0].Interrupt? {
      var c2 := c.(executed := c.executed + [ExecutionOf(c.nodes, at, step)], replies := c.replies[1..]);
      GateUncommitted(env, c2.(nodes := SetLeaf(c.nodes, at, RecordResult(leaf, c.replies[0].result))), at, step);
    }
  }

  lemma GateUncommitted(env: Env, c: Core, at: Target, step: StepDef)
    requires LeafAt(c.nodes, at)
    ensures var control := Gate(env, c, at, step).core.control;
            Gate(env, c, at, step).commit || control.Halted? || control.FailingLoop?
  {
    hide SetLeaf;
  }

  // ---- every event keeps the invariant ----

  lemma OthersOwn(f: Fleet, g: Fleet, j: nat)
    requires j < |f.workers| && j < |g.workers| && g.workers[j] == f.workers[j] && Owns(f, j) && f.begun <= g.begun
    requires forall key :: Call(j, key) in f.begun && Called(g, key) ==> Called(f, key)
    ensures Owns(g, j)
  {
    hide Called, JustCalled, HasLeaf, LeafOf;
  }

  lemma LoadKeeps(f: Fleet, env: Env, replies: seq<Reply>)
    requires Inv(f) && Enabled(f, Load(env, replies))
    ensures Inv(After(f, Load(env, replies)))
  {
    hide RunningOpen, Called, HasLeaf, Runnable, LeafOf;
    var g := After(f, Load(env, replies));
    forall j | 0 <= j < |g.workers|
      ensures InStep(g, j) && Owns(g, j)
    {
      if j < |f.workers| {
        CalledSame(f, g);
        OthersOwn(f, g, j);
      }
    }
  }

  lemma CalledSame(f: Fleet, g: Fleet)
    requires g.calls == f.calls
    ensures forall key :: Called(g, key) ==> Called(f, key)
  {
  }

  lemma RowKeeps(f: Fleet, g: Fleet)
    requires Inv(f) && g == f.(row := g.row)
    requires g.row.Some? ==>
               f.row.Some? && g.row.value.nodes == f.row.value.nodes && g.row.value.revision >= f.row.value.revision
    ensures Inv(g)
  {
    hide RunningOpen, Called, HasLeaf, LeafOf;
    CalledSame(f, g);
    forall j | 0 <= j < |g.workers|
      ensures InStep(g, j) && Owns(g, j)
    {
      assert InStep(f, j) && Owns(f, j);
      OthersOwn(f, g, j);
    }
  }

  /** A worker about to run an attempt has opened it itself, and no one has run it. */
  lemma RunsOwn(f: Fleet, i: nat)
    requires Inv(f) && Enabled(f, Work(i)) && Runs(f.workers[i].env, f.workers[i].core).Some?
    ensures var key := Runs(f.workers[i].env, f.workers[i].core).value; Call(i, key) in f.begun && !Called(f, key)
  {
    hide Called, HasLeaf, RunningOpen, Runs, SlotOf, Propose;
    assert InStep(f, i) && Owns(f, i);
    RunsRunning(f.workers[i].env, f.workers[i].core);
  }

  lemma CalledAdds(f: Fleet, g: Fleet, call: Call)
    requires g.calls == f.calls + [call]
    ensures forall key :: Called(g, key) ==> Called(f, key) || key == call.key
  {
    forall key | Called(g, key)
      ensures Called(f, key) || key == call.key
    {
      var c :| 0 <= c < |g.calls| && g.calls[c].key == key;
      if c < |f.calls| { assert f.calls[c].key == key; }
    }
  }

  lemma WorkKeeps(f: Fleet, i: nat)
    requires Inv(f) && Enabled(f, Work(i))
    ensures Inv(After(f, Work(i)))
  {
    hide Called, HasLeaf, RunningOpen, Runs, SlotOf, Propose, Sound;
    var w := f.workers[i];
    var g := After(f, Work(i));
    assert InStep(f, i) && Owns(f, i);
    var key := Runs(w.env, w.core);
    if key.Some? {
      RunsOwn(f, i);
      CalledAdds(f, g, Call(i, key.value));
      FreshCall(f, key.value);
    } else {
      CalledSame(f, g);
    }
    forall j | 0 <= j < |g.workers| && j != i
      ensures InStep(g, j) && Owns(g, j)
    {
      assert InStep(f, j) && Owns(f, j);
      OthersOwn(f, g, j);
    }
    WorkerWorks(f, i);
  }

  lemma FreshCall(f: Fleet, key: Key)
    requires !Called(f, key)
    ensures forall c :: 0 <= c < |f.calls| ==> f.calls[c].key != key
  {
  }

  lemma WorkerWorks(f: Fleet, i: nat)
    requires Inv(f) && Enabled(f, Work(i))
    ensures InStep(After(f, Work(i)), i) && Owns(After(f, Work(i)), i)
  {
    hide Called, HasLeaf, Runs, SlotOf, Propose, Sound, LeafOf;
    var w := f.workers[i];
    var g := After(f, Work(i));
    assert InStep(f, i) && Owns(f, i);
    WorkSound(w.env, w.core);
    var key := Runs(w.env, w.core);
    if key.Some? { CalledAdds(f, g, Call(i, key.value)); } else { CalledSame(f, g); }
    if !Propose(w.env, w.core).commit {
      UncommittedControl(w.env, w.core);
      if w.core.control.Starting? && !HasOpenAttempt(w.core.nodes) {
        NoneOpen(w.core.nodes);
      }
    }
  }

  lemma WorkSound(env: Env, c: Core)
    requires Sound(env, c)
    ensures Sound(env, Propose(env, c).core) && Sound(env, Propose(env, c).core.(control := Propose(env, c).refused))
    ensures Sound(env, Propose(env, c).core.(control := Propose(env, c).refused, hasError := true))
  {
    hide Propose;
    ProposeSound(env, c);
  }

  lemma NoneOpen(nodes: seq<Node>)
    requires !HasOpenAttempt(nodes)
    ensures forall p: Place :: HasLeaf(nodes, p) ==> !OpenAttempt(LeafOf(nodes, p))
  {
    forall p: Place | HasLeaf(nodes, p)
      ensures !OpenAttempt(LeafOf(nodes, p))
    {
      assert !NodeHasOpenAttempt(nodes[p.pos]);
    }
  }

  lemma RefusedKeeps(f: Fleet, i: nat)
    requires Inv(f) && Enabled(f, Commit(i)) && !Accepts(f.row, f.workers[i].revision)
    ensures Inv(After(f, Commit(i)))
  {
    hide Called, HasLeaf, RunningOpen, Runs, Propose, Sound, LeafOf;
    var w := f.workers[i];
    var g := After(f, Commit(i));
    assert InStep(f, i);
    WorkSound(w.env, w.core);
    RefusedControl(w.env, w.core);
    CalledSame(f, g);
    forall j | 0 <= j < |g.workers|
      ensures InStep(g, j) && Owns(g, j)
    {
      if j != i {
        assert InStep(f, j) && Owns(f, j);
        OthersOwn(f, g, j);
      }
    }
  }

  /** A leaf that is running after a commit has just been opened by it, or was running before and was not called. */
  lemma RunningAfter(env: Env, c: Core, change: Change, p: Place)
    requires Sound(env, c) && Propose(env, c).commit && Allowed(c.nodes, change) && Placed(env, c, change)
    requires Propose(env, c).core.nodes == Changed(c.nodes, change) && (c.control.Starting? ==> RunningOpen(c.nodes))
    requires HasLeaf(c.nodes, p) && LeafOf(c.nodes, p).state.Running? && CarriesOn(c.control) ==>
               OpenAttempt(LeafOf(c.nodes, p))
    requires var after := Propose(env, c).core;
             HasLeaf(after.nodes, p) && LeafOf(after.nodes, p).state.Running? && CarriesOn(after.control)
    ensures var after := Propose(env, c).core.nodes;
            && CarriesOn(c.control) && OpenAttempt(LeafOf(after, p))
            && (Opens(env, c) == Some(LastKey(after, p))
                || (HasLeaf(c.nodes, p) && LeafOf(c.nodes, p) == LeafOf(after, p)
                    && Runs(env, c) != Some(LastKey(after, p))))
  {
    hide HasLeaf, Runs, SlotOf, Propose, Sound, LeafOf, Opens, Changed, Runnable, SelectMove, RecoverLeaf;
    OpensIs(env, c, change);
    RunsRunning(env, c);
    if Runs(env, c).Some? { RunsSettles(env, c); }
    StaysControl(env, c);
    ChangedLeaf(c.nodes, change, p);
    if c.control.Starting? { StartRecovers(env, c, p); }
    match change
    case Recovered =>
    case LeafChange(at, leaf) =>
      if p != PlaceOf(c.nodes, at) {
        UnrunPlace(env, c, at, p);
      } else {
        assert Opens(env, c) == Some(LastKey(Propose(env, c).core.nodes, p));
      }
    case Same => SettledPlace(env, c, change, p);
    case LoopChange(_, _) => SettledPlace(env, c, change, p);
  }

  /** The committed worker: what it now holds as running it has just opened, or held before. */
  lemma CommitOwns(f: Fleet, i: nat, change: Change)
    requires Inv(f) && Enabled(f, Commit(i)) && Accepts(f.row, f.workers[i].revision)
    requires var w := f.workers[i];
             && Allowed(w.core.nodes, change) && Placed(w.env, w.core, change)
             && Propose(w.env, w.core).core.nodes == Changed(w.core.nodes, change)
    requires Opens(f.workers[i].env, f.workers[i].core).Some? ==>
               !Called(f, Opens(f.workers[i].env, f.workers[i].core).value)
    ensures Owns(After(f, Commit(i)), i)
  {
    hide Called, HasLeaf, Runs, SlotOf, Propose, Sound, LeafOf, Opens, Changed, Runnable, SelectMove, RecoverLeaf;
    var w := f.workers[i];
    var g := After(f, Commit(i));
    var after := g.workers[i].core.nodes;
    assert InStep(f, i) && Owns(f, i);
    CalledSame(f, g);
    forall p: Place | HasLeaf(after, p) && LeafOf(after, p).state.Running? && CarriesOn(g.workers[i].core.control)
      ensures OpenAttempt(LeafOf(after, p)) && Call(i, LastKey(after, p)) in g.begun && !Called(g, LastKey(after, p))
    {
      RunningAfter(w.env, w.core, change, p);
    }
  }

  predicate CarriesOn(control: Control) { control.Ready? || control.Prompting? }

  lemma StartRecovers(env: Env, c: Core, p: Place)
    requires Sound(env, c) && c.control.Starting? && RunningOpen(c.nodes) && HasLeaf(Propose(env, c).core.nodes, p)
    ensures !LeafOf(Propose(env, c).core.nodes, p).state.Running?
  {
    hide ApplyMove, Runnable;
    ChangedLeaf(c.nodes, Recovered, p);
  }

  /** Only a coordinator that carried on, or has just recovered, carries on. */
  lemma StaysControl(env: Env, c: Core)
    requires Sound(env, c)
    ensures CarriesOn(Propose(env, c).core.control) ==> CarriesOn(c.control) || c.control.Starting?
  {
    hide ApplyMove, Runnable;
  }

  lemma UnrunPlace(env: Env, c: Core, at: Target, p: Place)
    requires Sound(env, c) && SlotOf(env, c) == Some(at) && LeafAt(c.nodes, at)
    requires HasLeaf(c.nodes, p) && p != PlaceOf(c.nodes, at)
    ensures LeafOf(c.nodes, p).attempts != [] ==> Runs(env, c) != Some(LastKey(c.nodes, p))
  {
    hide Propose, SlotOf;
  }

  /** A change that is not of a leaf leaves nothing running that was just run. */
  lemma SettledPlace(env: Env, c: Core, change: Change, p: Place)
    requires Sound(env, c) && Propose(env, c).commit && !change.LeafChange? && !change.Recovered?
    requires Allowed(c.nodes, change) && Propose(env, c).core.nodes == Changed(c.nodes, change)
    requires HasLeaf(c.nodes, p) && LeafOf(c.nodes, p).attempts != [] && LeafOf(c.nodes, p).state.Running?
    requires HasLeaf(Changed(c.nodes, change), p)
    ensures Runs(env, c) != Some(LastKey(c.nodes, p))
  {
    if Runs(env, c) == Some(LastKey(c.nodes, p)) {
      RunsRunning(env, c);
      RunsSettles(env, c);
      var at := SlotOf(env, c).value;
      assert PlaceOf(c.nodes, at) == p;
      ChangedLeaf(c.nodes, change, p);
      RunsAtSlot(env, c, change);
      assert false;
    }
  }

  /** A running slot is never the one whose loop gains an iteration in the same step. */
  lemma RunsAtSlot(env: Env, c: Core, change: Change)
    requires Sound(env, c) && Runs(env, c).Some? && Propose(env, c).commit
    requires Allowed(c.nodes, change) && Propose(env, c).core.nodes == Changed(c.nodes, change) && !change.LeafChange?
    ensures LeafAt(c.nodes, SlotOf(env, c).value) && LeafAt(Changed(c.nodes, change), SlotOf(env, c).value)
    ensures PlaceOf(Changed(c.nodes, change), SlotOf(env, c).value) == PlaceOf(c.nodes, SlotOf(env, c).value)
  {
    RunsRunning(env, c);
    var move := SelectMove(env.blueprint, c.nodes);
    SlotSelected(env, c.nodes, move.at, move.step);
    hide Runnable, SelectMove;
    SlotEffect(env, c, move.at, move.step);
    hide AdvanceSlot;
  }

  lemma AcceptedKeeps(f: Fleet, i: nat)
    requires Inv(f) && Enabled(f, Commit(i)) && Accepts(f.row, f.workers[i].revision)
    ensures Inv(After(f, Commit(i)))
  {
    hide Sound, Propose, Runnable, Opens, Runs, SlotOf, Allowed, Placed, Called, RunningOpen, Recorded, Changed;
    hide SelectMove;
    var w := f.workers[i];
    var g := After(f, Commit(i));
    assert InStep(f, i) && w.core.nodes == f.tree;
    var change := ProposeChanges(w.env, w.core);
    OpensIs(w.env, w.core, change);
    WorkSound(w.env, w.core);
    BegunRecorded(f, i, change);
    CommitOwns(f, i, change);
    CalledSame(f, g);
    ChangedRunningOpen(f.tree, change);
    forall j | 0 <= j < |g.workers| && j != i
      ensures InStep(g, j) && Owns(g, j)
    {
      assert InStep(f, j) && Owns(f, j);
      OthersOwn(f, g, j);
    }
  }

  /** An accepted commit keeps every begun attempt recorded and begins one that was not. */
  lemma BegunRecorded(f: Fleet, i: nat, change: Change)
    requires Inv(f) && Enabled(f, Commit(i)) && Accepts(f.row, f.workers[i].revision)
    requires var w := f.workers[i];
             && w.core.nodes == f.tree && Allowed(f.tree, change) && Placed(w.env, w.core, change)
             && Propose(w.env, w.core).core.nodes == Changed(f.tree, change)
    ensures var g := After(f, Commit(i));
            && (forall o :: o in g.begun ==> Recorded(g.tree, o.key))
            && (forall a, b :: a in g.begun && b in g.begun && a.key == b.key ==> a == b)
    ensures var key := Opens(f.workers[i].env, f.workers[i].core); key.Some? ==> !Called(f, key.value)
  {
    hide Sound, Propose, Runnable, Opens, Runs, SlotOf, SelectMove, HasLeaf, Changed;
    var w := f.workers[i];
    var g := After(f, Commit(i));
    OpensIs(w.env, w.core, change);
    forall o | o in f.begun
      ensures Recorded(g.tree, o.key)
    {
      ChangedKeeps(f.tree, change, o.key.place);
    }
    var key := Opens(w.env, w.core);
    if key.Some? {
      ChangedKeeps(f.tree, change, key.value.place);
      ChangedLeaf(f.tree, change, key.value.place);
      assert Recorded(g.tree, key.value) && !Recorded(f.tree, key.value);
    }
  }

  lemma EventKeeps(f: Fleet, e: Event)
    requires Inv(f) && Enabled(f, e)
    ensures Inv(After(f, e))
  {
    hide Inv;
    match e
    case Load(env, replies) => LoadKeeps(f, env, replies);
    case Work(i) => WorkKeeps(f, i);
    case Commit(i) => if Accepts(f.row, f.workers[i].revision) { AcceptedKeeps(f, i); } else { RefusedKeeps(f, i); }
    case _ =>
      assert After(f, e) == f.(row := After(f, e).row);
      RowKeeps(f, After(f, e));
  }

  // ---- whole histories ----

  predicate CanHappen(f: Fleet, events: seq<Event>)
    decreases |events|
  {
    events != [] ==> Enabled(f, events[0]) && CanHappen(After(f, events[0]), events[1..])
  }

  function AfterAll(f: Fleet, events: seq<Event>): Fleet
    requires CanHappen(f, events)
    decreases |events|
  {
    if events == [] then f else AfterAll(After(f, events[0]), events[1..])
  }

  /** A run row nobody has loaded yet. */
  function Unloaded(row: Row): Fleet {
    Fleet(Some(row), row.nodes, [], {}, [])
  }

  lemma {:induction false} HistoryKeeps(f: Fleet, events: seq<Event>)
    requires Inv(f) && CanHappen(f, events)
    ensures Inv(AfterAll(f, events))
    decreases |events|
  {
    hide Inv, Enabled, After;
    if events != [] {
      EventKeeps(f, events[0]);
      HistoryKeeps(After(f, events[0]), events[1..]);
    }
  }

  /** The premise of the next lemma holds of every tree a coordinator commits. */
  lemma CommittedTreesAreOpen(env: Env, nodes: seq<Node>, k: nat)
    requires Guarantees.Committed(env, nodes, k)
    ensures RunningOpen(nodes)
  {
    hide Guarantees.Committed;
    forall p: Place | HasLeaf(nodes, p) && LeafOf(nodes, p).state.Running?
      ensures OpenAttempt(LeafOf(nodes, p))
    {
      LeafRecorded(env, nodes, k, p);
    }
  }

  /** One executor per attempt: whatever coordinators load, work, commit, are refused, finish or die in whatever order,
      no attempt record is ever passed to run_attempt twice, and the coordinator that runs one is the one that durably
      committed it as open. */
  lemma OneExecutorPerAttempt(row: Row, events: seq<Event>, c: nat, d: nat)
    requires RunningOpen(row.nodes) && CanHappen(Unloaded(row), events)
    requires c < |AfterAll(Unloaded(row), events).calls| && d < |AfterAll(Unloaded(row), events).calls|
    ensures var f := AfterAll(Unloaded(row), events);
            && f.calls[c] in f.begun
            && (f.calls[c].key == f.calls[d].key ==> c == d)
            && (forall b :: b in f.begun && b.key == f.calls[c].key ==> b.worker == f.calls[c].worker)
  {
    var f := AfterAll(Unloaded(row), events);
    assert Inv(f) by {
      hide RunningOpen;
      HistoryKeeps(Unloaded(row), events);
    }
    assert f.calls[c] in f.begun;
  }

  // ---- no call goes unrecorded ----

  function CallsBy(calls: seq<Call>, i: nat): nat {
    if calls == [] then 0 else CallsBy(calls[..|calls| - 1], i) + (if Last(calls).worker == i then 1 else 0)
  }

  /** The calls a coordinator has made, the one whose commit it has prepared included. */
  function Made(w: Worker): nat {
    if w.proposal.Some? then |w.proposal.value.core.executed| else |w.core.executed|
  }

  predicate Counted(f: Fleet) {
    && (forall c :: 0 <= c < |f.calls| ==> f.calls[c].worker < |f.workers|)
    && (forall i :: 0 <= i < |f.workers| ==> CallsBy(f.calls, i) == Made(f.workers[i]))
  }

  lemma {:induction false} NobodysCalls(calls: seq<Call>, i: nat)
    requires forall c :: 0 <= c < |calls| ==> calls[c].worker != i
    ensures CallsBy(calls, i) == 0
  {
    if calls != [] { NobodysCalls(calls[..|calls| - 1], i); }
  }

  lemma CallsByNext(calls: seq<Call>, call: Call, i: nat)
    ensures CallsBy(calls + [call], i) == CallsBy(calls, i) + (if call.worker == i then 1 else 0)
  {
    assert (calls + [call])[..|calls + [call]| - 1] == calls;
  }

  lemma EventCounts(f: Fleet, e: Event)
    requires Counted(f) && Enabled(f, e)
    ensures Counted(After(f, e))
  {
    hide Runs, Propose, Sound, Opens, Runnable, CallsBy;
    var g := After(f, e);
    match e
    case Load(env, replies) => NobodysCalls(f.calls, |f.workers|);
    case Work(i) =>
      var w := f.workers[i];
      RunsRunning(w.env, w.core);
      ExecutedLength(w.env, w.core);
      if Runs(w.env, w.core).Some? {
        forall j | 0 <= j < |g.workers|
          ensures CallsBy(g.calls, j) == Made(g.workers[j])
        {
          CallsByNext(f.calls, Call(i, Runs(w.env, w.core).value), j);
        }
      }
    case Commit(i) =>
    case Finish(_) =>
    case SetStatus(_) =>
    case DeleteRun =>
  }

  lemma {:induction false} HistoryCounts(f: Fleet, events: seq<Event>)
    requires Counted(f) && CanHappen(f, events)
    ensures Counted(AfterAll(f, events))
    decreases |events|
  {
    hide Counted, Enabled, After;
    if events != [] {
      EventCounts(f, events[0]);
      HistoryCounts(After(f, events[0]), events[1..]);
    }
  }

  /** Over any history the calls recorded of a coordinator are as many as it has made: none is left out. */
  lemma CallsAreRecorded(row: Row, events: seq<Event>, i: nat)
    requires CanHappen(Unloaded(row), events) && i < |AfterAll(Unloaded(row), events).workers|
    ensures var f := AfterAll(Unloaded(row), events); CallsBy(f.calls, i) == Made(f.workers[i])
  {
    HistoryCounts(Unloaded(row), events);
  }

  /** Every leaf of a is still in b, with at least its attempts. */
  ghost predicate Keeps(a: seq<Node>, b: seq<Node>) {
    forall p: Place :: HasLeaf(a, p) ==> HasLeaf(b, p) && |LeafOf(a, p).attempts| <= |LeafOf(b, p).attempts|
  }

  /** No lost update: a commit is accepted only from a coordinator that holds the last committed tree, and stores
      exactly its own next step from there; nothing else changes the tree. */
  lemma CommitsBuildOnTheLast(f: Fleet, e: Event)
    requires Inv(f) && Enabled(f, e)
    ensures Keeps(f.tree, After(f, e).tree)
    ensures e.Commit? && Accepts(f.row, f.workers[e.worker].revision) ==>
              var w := f.workers[e.worker];
              w.core.nodes == f.tree && After(f, e).tree == Propose(w.env, w.core).core.nodes
              && After(f, e).row.value.nodes == After(f, e).tree
    ensures !(e.Commit? && Accepts(f.row, f.workers[e.worker].revision)) ==> After(f, e).tree == f.tree
  {
    hide RunningOpen, HasLeaf, Propose, Sound, Runnable;
    if e.Commit? && Accepts(f.row, f.workers[e.worker].revision) {
      var w := f.workers[e.worker];
      assert InStep(f, e.worker);
      var change := ProposeChanges(w.env, w.core);
      hide Changed, Allowed, Placed;
      forall p: Place | HasLeaf(f.tree, p)
        ensures HasLeaf(After(f, e).tree, p) && |LeafOf(f.tree, p).attempts| <= |LeafOf(After(f, e).tree, p).attempts|
      {
        ChangedKeeps(f.tree, change, p);
      }
    }
  }

  lemma {:induction false} HistoriesOnlyGrow(f: Fleet, events: seq<Event>)
    requires Inv(f) && CanHappen(f, events)
    ensures Keeps(f.tree, AfterAll(f, events).tree)
    decreases |events|
  {
    hide Inv, Enabled, After;
    if events != [] {
      EventKeeps(f, events[0]);
      CommitsBuildOnTheLast(f, events[0]);
      HistoriesOnlyGrow(After(f, events[0]), events[1..]);
    }
  }
}
