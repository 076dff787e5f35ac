/** The life of one run from its row's insertion to its last status (engine.py, loader.py, coordinator.py): start or
    resume, drive, finish, with other writers acting whenever the workspace lock is waited for. Setting up the
    worktree, inputs and agents is left out. */
module Engine {
  import opened StateModels
  import opened Transitions
  import opened Rows
  import opened Soundness
  import opened Solo
  import opened Interpreter
  import opened Refinement
  import opened PlanRefinement
  import opened Frontier
  import opened Restart
  import opened StateStore
  import opened Coordinator
  import opened Loader
  import opened Pauses

  datatype ResumeStatus =
    | ResumeOk
    | ResumeNotFound
    | WrongStatus
    | CorruptState
    | MissingSnapshot
    | MissingWorktree
    | ResumeFailed

  /** load_blueprint_from_snapshot: the blueprint the coordinator is bound to, or why there is none. */
  datatype Definitions = Rebuilt | DefinitionsMissing | DefinitionsInvalid

  /** _state_failure_status. */
  function FailureStatus(r: LoadResult): ResumeStatus {
    match r
    case NotFound => ResumeNotFound
    case MissingState => CorruptState
    case MissingSnapshotFiles => MissingSnapshot
    case _ => ResumeFailed
  }

  /** When load_for_resume gives this answer for a stored run: each one exactly under its own condition. */
  ghost predicate Answers(r: ResumeStatus, env: Env, definitions: Definitions, worktree: bool, row: Option<Row>,
                          document: Document, snapshots: bool, json: Option<Payload>)
  {
    var paused := row.Some? && row.value.status == RunPaused;
    var newer := row.Some? && json.Some? && json.value.revision > row.value.revision;
    var loads := paused && document.Readable? && snapshots && !newer;
    var fit := loads && !AllTerminated(row.value.nodes) && AllPausedRecorded(row.value.nodes);
    var defined := fit && worktree && definitions.Rebuilt?;
    && (r.ResumeNotFound? <==> row.None?)
    && (r.WrongStatus? <==> row.Some? && row.value.status != RunPaused)
    && (r.CorruptState? <==>
          || (paused && document.Absent?)
          || (loads && !fit)
          || (defined && !WellStructured(row.value.nodes, LoopTable(env.blueprint))))
    && (r.MissingSnapshot? <==>
          || (paused && document.Readable? && !snapshots)
          || (fit && worktree && definitions.DefinitionsMissing?))
    && (r.MissingWorktree? <==> fit && !worktree)
    && (r.ResumeFailed? <==>
          || (paused && document.Unreadable?)
          || (paused && document.Readable? && snapshots && newer)
          || (fit && worktree && definitions.DefinitionsInvalid?))
    && (r.ResumeOk? <==> defined && WellStructured(row.value.nodes, LoopTable(env.blueprint)))
  }

  /** What _finish_run leaves of the row it finds: its tree, under this status. */
  predicate EndsAs(after: Option<Row>, before: Option<Row>, status: RunStatus) {
    && (after.Some? <==> before.Some?)
    && (before.Some? ==>
          && after.value.nodes == before.value.nodes && after.value.status == status
          && before.value.revision <= after.value.revision <= before.value.revision + 1)
  }

  /** The machine a coordinator is when it starts on this row. */
  function StartedOn(row: Row, intrusions: seq<Intrusion>, replies: seq<Reply>, executed: seq<Execution>): Machine {
    Machine(Core(row.nodes, Starting, replies, executed, false), row.revision, Some(row), intrusions)
  }

  // ---- a run left alone ----

  /** Alone, the whole machine run is the solo run, and the row ends with its tree. */
  lemma {:induction false} AloneRuns(env: Env, m: Machine)
    requires Sound(env, m.core) && Alone(m) && m.row.value.nodes == m.core.nodes
    ensures var r := RunToHalt(env, m);
            r.core == Final(env, m.core) && Alone(r) && r.row.value.nodes == r.core.nodes
    decreases |m.core.replies|, Rank(m.core.nodes), ControlRank(m.core.control)
  {
    hide Runnable, Propose, Next;
    TickSound(env, m);
    if !m.core.control.Halted? {
      AloneTicks(env, m, 1);
      assert Ticks(env, m, 1) == Tick(env, m) && Steps(env, m.core, 1) == Next(env, m.core);
      hide Tick;
      TickLowers(env, m);
      AloneRuns(env, Tick(env, m));
    }
  }

  /** Alone, a coordinator started on a stored tree makes the solo run of it, adding its calls to those made before. */
  lemma StartedAlone(env: Env, row: Row, replies: seq<Reply>, executed: seq<Execution>)
    requires Runnable(env.blueprint, row.nodes)
    ensures var r := RunToHalt(env, StartedOn(row, [], replies, executed));
            var f := Final(env, Solo.Loaded(row.nodes, replies));
            && r.core.nodes == f.nodes && r.core.control == f.control && r.core.replies == f.replies
            && r.core.executed == executed + f.executed && r.intrusions == [] && r.row.Some?
            && r.row.value.nodes == f.nodes
  {
    hide Runnable, RunToHalt, Final;
    var c := Solo.Loaded(row.nodes, replies);
    AloneRuns(env, StartedOn(row, [], replies, executed));
    FinalHaving(env, c, executed);
    assert Having(c, executed) == StartedOn(row, [], replies, executed).core;
    assert Final(env, c).executed[0..] == Final(env, c).executed;
  }

  lemma PlanPasses(env: Env)
    requires Resolvable(env.blueprint)
    ensures StructureErrors(PlanNodes(env.blueprint), LoopTable(env.blueprint)) == []
    ensures Runnable(env.blueprint, PlanNodes(env.blueprint))
  {
    PlanRunnable(env);
    PlanLive(env);
    CommittedIsStructured(env, PlanNodes(env.blueprint), 0);
  }

  /** The fresh run of a blueprint whose definitions find their own, alone: the interpreter's. */
  lemma FreshAlone(env: Env, status: RunStatus, replies: seq<Reply>, executed: seq<Execution>)
    requires Resolvable(env.blueprint)
    ensures Runnable(env.blueprint, PlanNodes(env.blueprint))
    ensures var r := RunToHalt(env, StartedOn(Row(0, PlanNodes(env.blueprint), status), [], replies, executed));
            var run := RunPlan(env, env.blueprint, 0, [], World(replies, []));
            && r.core.nodes == run.nodes && r.core.control == Halted(run.ending) && r.core.replies == run.world.replies
            && r.core.executed == executed + run.world.executed
            && r.intrusions == [] && r.row.Some? && r.row.value.nodes == run.nodes
  {
    PlanPasses(env);
    CoordinatorRefinesInterpreter(env, replies);
    hide Runnable, RunToHalt, Final, RunPlan;
    StartedAlone(env, Row(0, PlanNodes(env.blueprint), status), replies, executed);
  }

  /** A plan that passes the structure check can be run without raising, whatever its ids. */
  lemma CheckedPlanRuns(defs: seq<Definition>)
    requires StructureErrors(PlanNodes(defs), LoopTable(defs)) == []
    ensures Runnable(defs, PlanNodes(defs))
  {
    var nodes := PlanNodes(defs);
    StructureErrorsIff(nodes, LoopTable(defs));
    hide StructureErrors, LoopTable;
    forall i | 0 <= i < |defs|
      ensures RunnableNode(defs, nodes[i])
    {
      assert nodes[i] == PlanNode(defs[i]);
      assert NodeStructured(nodes[i], LoopTable(defs));
      if defs[i].LoopItem? {
        assert Embodies(nodes[i].iterations[0].steps, LoopTable(defs)[defs[i].loop.id].body);
        FoundIsDefined(defs, defs[i].loop.id);
        var found := Lookup(defs, defs[i].loop.id);
        if found.Some? && found.value.LoopItem? {
          var j :| 0 <= j < |defs| && defs[j] == found.value;
          LookupHasId(defs, defs[i].loop.id);
          assert NodeStructured(nodes[j], LoopTable(defs)) && nodes[j] == PlanNode(defs[j]);
          assert Embodies(nodes[j].iterations[0].steps, LoopTable(defs)[defs[i].loop.id].body);
        }
      }
    }
  }

  lemma {:induction false} FoundIsDefined(defs: seq<Definition>, id: string)
    ensures Lookup(defs, id).Some? ==> exists j :: 0 <= j < |defs| && defs[j] == Lookup(defs, id).value
  {
    if defs != [] && DefinitionId(defs[0]) != id {
      FoundIsDefined(defs[1..], id);
      if Lookup(defs, id).Some? {
        var j :| 0 <= j < |defs[1..]| && defs[1..][j] == Lookup(defs, id).value;
        assert defs[j + 1] == Lookup(defs, id).value;
      }
    } else if defs != [] {
      assert defs[0] == Lookup(defs, id).value;
    }
  }

  class Engine {
    const env: Env
    const store: RunStateStore
    const outside: Outside
    /** What the snapshot gives, and whether the worktree of a worktree-backed run is still there. */
    const definitions: Definitions
    const worktree: bool

    constructor (env: Env, store: RunStateStore, outside: Outside, definitions: Definitions, worktree: bool)
      ensures this.env == env && this.store == store && this.outside == outside
      ensures this.definitions == definitions && this.worktree == worktree
    {
      this.env := env;
      this.store := store;
      this.outside := outside;
      this.definitions := definitions;
      this.worktree := worktree;
    }

    /** RunCoordinator.load succeeds. */
    predicate CanStart()
      reads store
    {
      && Loadable(store.row, store.document, store.snapshots, store.json) && definitions.Rebuilt?
      && StructureErrors(store.row.value.nodes, LoopTable(env.blueprint)) == []
    }

    /** load_for_resume, with the lock held: each refusal exactly under its own condition, and accepted exactly a paused
        row whose tree, worktree and definitions are all fit. */
    method LoadForResume() returns (r: ResumeStatus)
      modifies store`json, store`disk
      ensures Answers(r, env, definitions, worktree, store.row, store.document, store.snapshots, old(store.json))
      ensures r.ResumeOk? ==> CanStart() && Accepted(env, store.row.value.nodes)
      ensures old(store.Consistent()) ==> store.Consistent()
    {
      hide AllTerminated, AllPausedRecorded, LoopTable, WellStructured, Unrecorded, LoadOf, Project, ShowsRow;
      if store.row.None? { return ResumeNotFound; }
      if store.row.value.status != RunPaused { return WrongStatus; }
      var loaded := store.Load();
      if !loaded.Loaded? { return FailureStatus(loaded); }
      var leaves := ValidatePausedLeaves(loaded.nodes);
      if !leaves.Resumable? { return CorruptState; }
      if !worktree { return MissingWorktree; }
      r := CheckDefinitions(loaded.nodes);
    }

    /** _check_definitions. */
    method CheckDefinitions(nodes: seq<Node>) returns (r: ResumeStatus)
      ensures r.MissingSnapshot? <==> definitions.DefinitionsMissing?
      ensures r.ResumeFailed? <==> definitions.DefinitionsInvalid?
      ensures r.CorruptState? <==> definitions.Rebuilt? && !WellStructured(nodes, LoopTable(env.blueprint))
      ensures r.ResumeOk? <==> definitions.Rebuilt? && WellStructured(nodes, LoopTable(env.blueprint))
      ensures r.ResumeOk? ==> StructureErrors(nodes, LoopTable(env.blueprint)) == []
    {
      match definitions
      case DefinitionsMissing => return MissingSnapshot;
      case DefinitionsInvalid => return ResumeFailed;
      case Rebuilt =>
        StructureErrorsIff(nodes, LoopTable(env.blueprint));
        var errors := ValidateLoopStructure(nodes, env.blueprint);
        r := if errors == [] then ResumeOk else CorruptState;
    }

    /** _finish_run: with the lock held, the row as others left it keeps its tree and takes this status. When its
        state can be loaded it is saved at the next revision, so that no commit of a coordinator still at work on it
        is accepted. */
    method FinishRun(status: RunStatus)
      modifies store
      ensures var row := Disturb(old(store.row), old(store.intrusions));
              var document := AfterOthers(old(store.document), old(store.intrusions));
              var loaded := Loadable(row, document, store.snapshots, old(store.json));
              && store.row == (if row.None? then None
                               else if loaded then Some(Row(row.value.revision + 1, row.value.nodes, status))
                               else Some(row.value.(status := status)))
              && (loaded ==> forall revision: nat :: revision <= row.value.revision ==> !Accepts(store.row, revision))
              && EndsAs(store.row, row, status)
      ensures store.intrusions == Rest(old(store.intrusions))
      ensures old(store.Consistent()) ==> store.Consistent()
    {
      store.TakeLock();
      var loaded := store.Load();
      if loaded.Loaded? {
        var _ := store.SaveLocked(loaded.nodes, loaded.revision, Some(status));
      } else {
        store.UpdateStatus(status);
      }
    }

    /** The part of drive_run that executes: load without the lock, check the definitions and the loops, run the
        coordinator. */
    method Drive() returns (ending: Ending)
      requires CanStart() ==> Runnable(env.blueprint, store.row.value.nodes)
      modifies store, outside
      ensures !old(CanStart()) ==>
                && ending == Returned(RunFailed) && store.row == old(store.row)
                && store.intrusions == old(store.intrusions)
                && outside.executed == old(outside.executed) && outside.replies == old(outside.replies)
      ensures old(CanStart()) ==>
                var m := RunToHalt(env, old(StartedOn(store.row.value, store.intrusions,
                                                      outside.replies, outside.executed)));
                && m.core.control == Halted(ending) && store.row == m.row && store.intrusions == m.intrusions
                && outside.executed == m.core.executed && outside.replies == m.core.replies
      ensures old(store.Consistent()) ==> store.Consistent()
    {
      hide RunToHalt, Runnable, StructureErrors;
      var loaded := store.Load();
      if !loaded.Loaded? || !definitions.Rebuilt? {
        return Returned(RunFailed);
      }
      var errors := ValidateLoopStructure(loaded.nodes, env.blueprint);
      if errors != [] {
        return Returned(RunFailed);
      }
      var coordinator := new RunCoordinator(env, store, outside, loaded.nodes, loaded.revision);
      ending := coordinator.Execute();
    }

    /** The machine a fresh run is, once its plan is stored. */
    ghost function Fresh(): Machine
      reads store, outside
    {
      var row := Disturb(store.row, store.intrusions);
      StartedOn(Row(0, PlanNodes(env.blueprint), if row.Some? then row.value.status else RunRunning),
                Rest(store.intrusions),
                outside.replies, outside.executed)
    }

    /** What the plan needs to be run: its snapshot, and no structure error. */
    predicate PlanStarts() {
      && store.snapshots && definitions.Rebuilt?
      && StructureErrors(PlanNodes(env.blueprint), LoopTable(env.blueprint)) == []
    }

    /** run, from a row just inserted, with any other writers: the run of the plan, or a failed one when the plan
        cannot be stored or started, and the row left with the outcome as its status. */
    method Run() returns (ending: Ending)
      requires store.row == Some(Row(0, [], RunRunning)) && store.document == Absent && store.json == None
      modifies store, outside
      ensures var row := Disturb(old(store.row), old(store.intrusions));
              && (!Accepts(row, 0) || !PlanStarts() ==>
                    ending == Returned(RunFailed) && outside.executed == old(outside.executed))
              && (!Accepts(row, 0) ==> EndsAs(store.row, row, RunFailed))
              && (Accepts(row, 0) && PlanStarts() ==>
                    && Runnable(env.blueprint, PlanNodes(env.blueprint))
                    && var m := RunToHalt(env, old(Fresh()));
                       && m.core.control == Halted(ending) && outside.executed == m.core.executed
                       && outside.replies == m.core.replies
                       && if ending.Returned? then EndsAs(store.row, Disturb(m.row, m.intrusions), ending.status)
                          else store.row == m.row)
      ensures Accepts(Disturb(old(store.row), old(store.intrusions)), 0) ==> store.Consistent()
      ensures old(store.intrusions) == [] && Resolvable(env.blueprint) && store.snapshots && definitions.Rebuilt? ==>
                var run := RunPlan(env, env.blueprint, 0, [], World(old(outside.replies), []));
                && ending == run.ending && outside.executed == old(outside.executed) + run.world.executed
                && outside.replies == run.world.replies && store.intrusions == []
                && store.row.Some? && store.row.value.nodes == run.nodes
                && (ending.Returned? ==> store.row.value.status == ending.status)
    {
      hide RunPlan, Resolvable, Runnable, RunToHalt, StructureErrors;
      if Resolvable(env.blueprint) {
        PlanPasses(env);
        FreshAlone(env, RunRunning, outside.replies, outside.executed);
      }
      var ok := store.Initialize(PlanNodes(env.blueprint));
      if !ok {
        store.UpdateStatus(RunFailed);
        return Returned(RunFailed);
      }
      if StructureErrors(PlanNodes(env.blueprint), LoopTable(env.blueprint)) == [] { CheckedPlanRuns(env.blueprint); }
      ending := Drive();
      if ending.Returned? {
        FinishRun(ending.status);
      }
    }

    /** resume, with any other writers: refused by the verdict on the row as they left it, and otherwise the stored
        tree is run on, and the row left with the outcome as its status. */
    method Resume() returns (r: ResumeStatus, ending: Option<Ending>)
      requires var row := Disturb(store.row, store.intrusions);
               row.Some? && Accepted(env, row.value.nodes) ==> Runnable(env.blueprint, row.value.nodes)
      modifies store, outside
      ensures var row := Disturb(old(store.row), old(store.intrusions));
              var document := AfterOthers(old(store.document), old(store.intrusions));
              && Answers(r, env, definitions, worktree, row, document, store.snapshots, old(store.json))
              && (r != ResumeOk ==> ending.None? && store.row == row && outside.executed == old(outside.executed))
              && (r == ResumeOk ==>
                    && row.Some? && Runnable(env.blueprint, row.value.nodes)
                    && var m := RunToHalt(env, StartedOn(row.value.(status := RunRunning), Rest(old(store.intrusions)),
                                                         old(outside.replies), old(outside.executed)));
                       && ending.Some? && m.core.control == Halted(ending.value) && outside.executed == m.core.executed
                       && if ending.value.Returned? then
                            EndsAs(store.row, Disturb(m.row, m.intrusions), ending.value.status)
                          else store.row == m.row)
      ensures old(store.intrusions) == [] && r == ResumeOk ==>
                var f := Final(env, Solo.Loaded(old(store.row).value.nodes, old(outside.replies)));
                && ending.Some? && f.control == Halted(ending.value)
                && outside.executed == old(outside.executed) + f.executed
                && store.row.Some? && store.row.value.nodes == f.nodes
                && (ending.value.Returned? ==> store.row.value.status == ending.value.status)
    {
      hide Runnable, RunToHalt, StructureErrors, AllPausedRecorded, Final;
      store.TakeLock();
      r := LoadForResume();
      ending := None;
      if r != ResumeOk {
        return;
      }
      store.UpdateStatus(RunRunning);
      StartedAlone(env, store.row.value, outside.replies, outside.executed);
      var e := Drive();
      ending := Some(e);
      if e.Returned? {
        FinishRun(e.status);
      }
    }
  }

  /** A paused run left alone and fit to resume is resumed by a user with these replies. */
  method ResumeAlone(engine: Engine, later: seq<Reply>) returns (r: ResumeStatus, second: Option<Ending>)
    requires engine.store.snapshots && engine.definitions.Rebuilt? && engine.worktree
    requires engine.store.intrusions == [] && engine.store.Consistent()
    requires engine.store.row.Some? && engine.store.row.value.status == RunPaused
    requires Accepted(engine.env, engine.store.row.value.nodes)
    requires Runnable(engine.env.blueprint, engine.store.row.value.nodes)
    modifies engine.store, engine.outside
    ensures var f := Final(engine.env, Solo.Loaded(old(engine.store.row).value.nodes, later));
            && r == ResumeOk && second.Some? && f.control == Halted(second.value)
            && engine.outside.executed == old(engine.outside.executed) + f.executed
            && engine.store.row.Some? && engine.store.row.value.nodes == f.nodes
            && (second.value.Returned? ==> engine.store.row.value.status == second.value.status)
  {
    hide Runnable, RunToHalt, Final, EndsAs, StructureErrors, LoopTable, AllPausedRecorded, AllTerminated;
    StructureErrorsIff(engine.store.row.value.nodes, LoopTable(engine.env.blueprint));
    engine.outside.replies := later;
    r, second := engine.Resume();
  }

  /** The interpreter's run of a plan, paused by its last reply, and the run resumed from its tree. */
  lemma PausedPlanResumes(env: Env, answered: seq<Reply>, later: seq<Reply>)
    requires Resolvable(env.blueprint)
    requires var paused := RunPlan(env, env.blueprint, 0, [], World(answered + [Interrupt], []));
             paused.ending == Returned(RunPaused) && paused.world.replies == []
    ensures var paused := RunPlan(env, env.blueprint, 0, [], World(answered + [Interrupt], []));
            && Accepted(env, paused.nodes) && Runnable(env.blueprint, paused.nodes)
            && var f := Final(env, Solo.Loaded(paused.nodes, later));
               var run := RunPlan(env, env.blueprint, 0, [], World(answered + later, []));
               && f.control == Halted(run.ending) && f.nodes == run.nodes
               && run.world.executed == paused.world.executed + f.executed
  {
    hide Runnable, RunPlan, Final, LiveTree, Accepted, PlanNodes;
    PlanLive(env);
    CoordinatorRefinesInterpreter(env, answered + [Interrupt]);
    CoordinatorRefinesInterpreter(env, answered + later);
    PausedTreeResumes(env, PlanNodes(env.blueprint), 0, answered + [Interrupt]);
    PausedRunResumes(env, PlanNodes(env.blueprint), 0, answered, later);
  }

  /** A run whose last reply interrupts a prompt, and its resumption by a user who answers: alone, together they are the
      interpreter's run given all the answers at once, in calls, tree, outcome and final status. */
  method RunThenResume(engine: Engine, answered: seq<Reply>, later: seq<Reply>)
    returns (first: Ending, r: ResumeStatus, second: Option<Ending>)
    requires Resolvable(engine.env.blueprint)
    requires engine.store.snapshots && engine.definitions.Rebuilt? && engine.worktree
    requires engine.store.row == Some(Row(0, [], RunRunning)) && engine.store.document == Absent
    requires engine.store.json == None
    requires engine.store.intrusions == []
    requires engine.outside.replies == answered + [Interrupt] && engine.outside.executed == []
    modifies engine.store, engine.outside
    ensures var paused := RunPlan(engine.env, engine.env.blueprint, 0, [], World(answered + [Interrupt], []));
            first == paused.ending && (first == Returned(RunPaused) && paused.world.replies == [] ==>
              var run := RunPlan(engine.env, engine.env.blueprint, 0, [], World(answered + later, []));
              && r == ResumeOk && second == Some(run.ending) && engine.outside.executed == run.world.executed
              && engine.store.row.Some? && engine.store.row.value.nodes == run.nodes
              && (run.ending.Returned? ==> engine.store.row.value.status == run.ending.status))
  {
    hide Runnable, RunPlan, Final, Resolvable, Accepted, EndsAs, Accepts, RunToHalt, StructureErrors, PlanNodes;
    first := engine.Run();
    r, second := ResumeNotFound, None;
    if first == Returned(RunPaused) && engine.outside.replies == [] {
      PausedPlanResumes(engine.env, answered, later);
      r, second := ResumeAlone(engine, later);
    }
  }
}
