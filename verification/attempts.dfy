/** Attempt numbers over whole runs: the numbers a leaf's attempts are run with increase, over retries, crashes,
    restarts and pauses, exactly while no result that is asked about and retried understates the number it was run
    with. */
module Attempts {
  import opened StateModels
  import opened FailureRules
  import opened LoopPolicy
  import opened Projection
  import opened Transitions
  import opened Soundness
  import opened Solo
  import opened Interpreter
  import opened Refinement
  import opened PlanRefinement
  import opened Moves
  import opened Frontier
  import opened Guarantees
  import opened Restart

  /** Calls for one leaf have ever larger numbers. */
  predicate Ascending(xs: seq<Execution>) {
    forall i, j :: 0 <= i < j < |xs| && xs[i].spot == xs[j].spot ==> xs[i].attempt < xs[j].attempt
  }

  // ---- results that understate their number ----

  /** The result about to be returned is a failure someone will be asked about, and reports fewer attempts than the
      number it was run with. */
  predicate Understated(env: Env, c: Core)
    requires Sound(env, c)
  {
    && InCall(env, c) && c.replies != [] && c.replies[0].Reply? && c.replies[0].result.status.ResultFailed?
    && (var move := SelectMove(env.blueprint, c.nodes);
        && GetLeaf(c.nodes, move.at).attempts != []
        && c.replies[0].result.attempts < Last(GetLeaf(c.nodes, move.at).attempts).number
        && Asks(move.step.onFailure) && env.Interactive())
  }

  predicate AnswersRetry(rs: seq<Reply>) {
    rs != [] && rs[0].Reply? && rs[0].step.DecideRetry?
  }

  /** And the answer will be to retry. */
  predicate Retold(env: Env, c: Core)
    requires Sound(env, c)
  {
    Understated(env, c) && AnswersRetry(c.replies[1..])
  }

  ghost predicate NeverRetold(env: Env, c: Core)
    requires Sound(env, c)
  {
    forall n: nat :: !Retold(env, Steps(env, c, n))
  }

  /** No result of the first n steps understates its number. */
  ghost predicate HonestFor(env: Env, c: Core, n: nat)
    requires Sound(env, c)
  {
    forall i: nat :: i < n ==> !Understated(env, Steps(env, c, i))
  }

  // ---- the numbers called so far, and the tree ----

  /** The place in the tree a call was made for. */
  function Where(spot: Spot): Place {
    match spot.at
    case Top(pos) => StepPlace(pos)
    case Body(pos, j) =>
      BodyPlace(pos, if spot.iteration.Some? && spot.iteration.value > 0 then spot.iteration.value - 1 else 0, j)
  }

  predicate GoesOn(control: Control) { control.Ready? || control.Prompting? }

  /** This leaf is not run again in this run: it is over, or the prompt open on it is not answered by a retry. */
  predicate Excused(c: Core, p: Place) {
    || c.control.Halted?
    || (c.control.Prompting? && LeafAt(c.nodes, c.control.at) && PlaceOf(c.nodes, c.control.at) == p
        && !AnswersRetry(c.replies))
  }

  /** The leaf will not be run with this number again. */
  predicate Behind(c: Core, p: Place, number: nat, lenient: bool) {
    HasLeaf(c.nodes, p) && LeafOf(c.nodes, p).attempts != [] &&
    var leaf := LeafOf(c.nodes, p);
    || Terminal(leaf.state)
    || number < Last(leaf.attempts).number
    || (number == Last(leaf.attempts).number && !(leaf.state.Running? && GoesOn(c.control)))
    || (lenient && Excused(c, p))
  }

  predicate Logged(c: Core, lenient: bool) {
    forall i :: 0 <= i < |c.executed| ==> Behind(c, Where(c.executed[i].spot), c.executed[i].attempt, lenient)
  }

  /** A frontier leaf's spot says where it is. */
  lemma SpotPlace(env: Env, nodes: seq<Node>, k: nat, at: Target, step: StepDef)
    requires LiveTree(env, nodes, k) && AtFrontier(env, nodes, k, at, step) && LeafAt(nodes, at)
    ensures Where(SpotOf(nodes, at)) == PlaceOf(nodes, at)
  {
    hide LoopHead, ClosedIteration, BodyAt, DoneNode;
    if at.Body? {
      assert RunningIteration(env.blueprint[k].loop, Last(nodes[k].iterations), |nodes[k].iterations|, at.index);
    }
  }

  // ---- one step ----

  /** A step logs exactly the call it makes. */
  lemma NextLogs(env: Env, c: Core)
    requires Sound(env, c)
    ensures Next(env, c).executed == c.executed + MissedCall(env, c)
  {
    NextIsPropose(env, c);
    hide Next, Runnable;
    if c.control.Ready? && SelectMove(env.blueprint, c.nodes).RunSlot? {
      var move := SelectMove(env.blueprint, c.nodes);
      SlotSelected(env, c.nodes, move.at, move.step);
      hide SelectMove, Outcomes, Numbered;
      NextIsSlot(env, c, move.at, move.step);
      hide Propose, AdvanceSlot;
      SlotExecuted(env, c, move.at, move.step);
    } else {
      hide SelectMove;
      QuietLogs(env, c);
    }
  }

  lemma QuietLogs(env: Env, c: Core)
    requires Sound(env, c) && !(c.control.Ready? && SelectMove(env.blueprint, c.nodes).RunSlot?)
    ensures Propose(env, c).core.executed == c.executed
  {
    hide Runnable, SelectMove, AdvanceSlot, SetLeaf, UntilHolds;
  }

  /** The leaf as a step leaves it: over, or not below the number it had, and above it when another attempt begins. */
  predicate Advances(a: Leaf, b: Leaf) {
    && b.attempts != []
    && (Terminal(b.state) || a.attempts == []
        || (Last(a.attempts).number <= Last(b.attempts).number
            && (b.state.Running? ==> Last(a.attempts).number < Last(b.attempts).number)))
  }

  /** The prompt opened is for a result that understates its number, and is not answered by a retry. */
  predicate Unanswered(c1: Core, at: Target, b: Leaf) {
    b.attempts != [] && b.state.Paused? && c1.control == Prompting(at) && !AnswersRetry(c1.replies)
  }

  lemma GateAdvances(env: Env, c: Core, at: Target, step: StepDef)
    requires LeafAt(c.nodes, at) && GetLeaf(c.nodes, at).attempts != []
    requires Last(GetLeaf(c.nodes, at).attempts).result.Some?
    ensures var b := GetLeaf(Gate(env, c, at, step).core.nodes, at);
            && b.attempts != [] && Last(b.attempts).number == Last(GetLeaf(c.nodes, at).attempts).number
            && (Terminal(b.state)
                || (b.state.Paused? && Gate(env, c, at, step).core.control == Prompting(at)
                    && Asks(step.onFailure) && env.Interactive()))
            && Gate(env, c, at, step).core.replies == c.replies
  {
  }

  lemma ActionAdvances(c: Core, at: Target, action: StepAction, r: StepResult, status: Option<RunStatus>)
    requires LeafAt(c.nodes, at) && GetLeaf(c.nodes, at).attempts != []
    ensures Advances(GetLeaf(c.nodes, at), GetLeaf(ApplyAction(c, at, action, r, status).core.nodes, at))
    ensures !action.ActRetry? ==> Terminal(GetLeaf(ApplyAction(c, at, action, r, status).core.nodes, at).state)
  {
  }

  /** The result of the open attempt is settled. */
  lemma SettleAdvances(env: Env, c: Core, at: Target, step: StepDef, r: StepResult)
    requires LeafAt(c.nodes, at) && GetLeaf(c.nodes, at).attempts != []
    ensures var e := Settle(env, c, at, step, r); var b := GetLeaf(e.core.nodes, at);
            && b.attempts != [] && !b.state.Running? && e.core.replies == c.replies
            && (Terminal(b.state)
                || (r.status.ResultFailed? && Last(b.attempts).number == r.attempts && b.state.Paused?
                    && e.core.control == Prompting(at)
                    && Asks(step.onFailure) && env.Interactive()))
  {
    hide Gate;
    var c1 := c.(nodes := SetLeaf(c.nodes, at, RecordResult(GetLeaf(c.nodes, at), r)));
    GateAdvances(env, c1, at, step);
    hide SetLeaf;
  }

  /** What a step makes of the leaf a: it carries on from it, or the run does not come back to it. */
  predicate Follows(c: Core, c1: Core, at: Target, a: Leaf, b: Leaf, lenient: bool) {
    || (c1.nodes == c.nodes && !GoesOn(c1.control))
    || ((Advances(a, b) || (lenient && Unanswered(c1, at, b)))
        && (c.control.Prompting? && !AnswersRetry(c.replies) ==> Terminal(b.state)))
  }

  lemma CallFollows(env: Env, c: Core, at: Target, step: StepDef, lenient: bool)
    requires LeafAt(c.nodes, at) && GetLeaf(c.nodes, at).attempts != [] && c.control.Ready?
    requires c.replies != [] && c.replies[0].Reply? && c.replies[0].result.status.ResultFailed?
             && c.replies[0].result.attempts < Last(GetLeaf(c.nodes, at).attempts).number
             && Asks(step.onFailure) && env.Interactive() ==>
               lenient && !AnswersRetry(c.replies[1..])
    ensures var c1 := RunAttempt(env, c, at, step).core;
            LeafAt(c1.nodes, at) && Follows(c, c1, at, GetLeaf(c.nodes, at), GetLeaf(c1.nodes, at), lenient)
  {
    hide Settle, SetLeaf, Outcomes, Numbered;
    if c.replies != [] && c.replies[0].Reply? {
      var c2 := c.(executed := c.executed + [ExecutionOf(c.nodes, at, step)], replies := c.replies[1..]);
      SettleAdvances(env, c2, at, step, c.replies[0].result);
      SettledEffect(env, c2, at, step, c.replies[0].result);
    }
  }

  lemma ReentryFollows(env: Env, c: Core, at: Target, step: StepDef, lenient: bool)
    requires LeafAt(c.nodes, at) && c.control.Ready?
    ensures var c1 := Gate(env, c, at, step).core;
            LeafAt(c1.nodes, at) && Follows(c, c1, at, GetLeaf(c.nodes, at), GetLeaf(c1.nodes, at), lenient)
  {
    var leaf := GetLeaf(c.nodes, at);
    GateEffect(env, c, at, step);
    if leaf.attempts != [] && Last(leaf.attempts).result.Some? {
      GateAdvances(env, c, at, step);
      hide Gate, SetLeaf;
    } else {
      hide SetLeaf;
    }
  }

  /** What a step does to the leaf of its slot. */
  lemma SlotFollows(env: Env, c: Core, at: Target, step: StepDef, lenient: bool)
    requires Sound(env, c) && c.control.Ready? && SelectMove(env.blueprint, c.nodes) == RunSlot(at, step)
    requires if lenient then !Retold(env, c) else !Understated(env, c)
    requires LeafAt(c.nodes, at) && (GetLeaf(c.nodes, at).state.Pending? ==> GetLeaf(c.nodes, at).attempts == [])
    ensures var c1 := Next(env, c);
            LeafAt(c1.nodes, at) && Follows(c, c1, at, GetLeaf(c.nodes, at), GetLeaf(c1.nodes, at), lenient)
  {
    SlotSelected(env, c.nodes, at, step);
    NextIsSlot(env, c, at, step);
    hide Runnable, SelectMove, Next, Outcomes, Numbered, Gate, RunAttempt, Follows, SetLeaf;
    var leaf := GetLeaf(c.nodes, at);
    if leaf.state.Paused? {
      ReentryFollows(env, c, at, step, lenient);
    } else if leaf.state.Pending? {
      BeginFollows(c, at, lenient);
    } else {
      CallFollows(env, c, at, step, lenient);
    }
  }

  lemma BeginFollows(c: Core, at: Target, lenient: bool)
    requires LeafAt(c.nodes, at) && GetLeaf(c.nodes, at).attempts == [] && c.control.Ready?
    ensures var c1 := BeginAttempt(c, at, 1, None).core;
            LeafAt(c1.nodes, at) && Follows(c, c1, at, GetLeaf(c.nodes, at), GetLeaf(c1.nodes, at), lenient)
  {
    hide SetLeaf;
  }

  lemma AnswerAdvances(env: Env, c: Core, at: Target)
    requires Sound(env, c) && c.control == Prompting(at)
    ensures var c1 := Next(env, c);
            || (c1.nodes == c.nodes && c1.control.Halted?)
            || (LeafAt(c1.nodes, at) && Advances(GetLeaf(c.nodes, at), GetLeaf(c1.nodes, at))
                && (!AnswersRetry(c.replies) ==> Terminal(GetLeaf(c1.nodes, at).state)))
  {
    NextAnswers(env, c, at);
    hide Next, Runnable;
    if c.replies != [] && c.replies[0].Reply? {
      var (action, recorded) := ApplyPromptDecision(c.replies[0].step,
                                                    Last(GetLeaf(c.nodes, at).attempts).result.value);
      ActionAdvances(c.(replies := c.replies[1..]), at, action, recorded, Some(RunRunning));
    }
    hide ApplyAction;
  }

  lemma FrontierSlot(env: Env, c: Core, k: nat, at: Target, step: StepDef)
    requires Resolvable(env.blueprint) && AtWork(env, c, k) && Sound(env, c) && c.control.Ready?
    requires SelectMove(env.blueprint, c.nodes) == RunSlot(at, step)
    ensures LiveTree(env, c.nodes, k) && AtFrontier(env, c.nodes, k, at, step) && LeafAt(c.nodes, at)
    ensures LiveLeaf(step, GetLeaf(c.nodes, at)) && !Terminal(GetLeaf(c.nodes, at).state)
    ensures GetLeaf(c.nodes, at).state.Pending? ==> GetLeaf(c.nodes, at).attempts == []
  {
    SlotAtFrontier(env, c.nodes, k, at, step);
    FrontierLeaf(env, c.nodes, k, at, step);
  }

  /** Which leaf a step may change: the one of its slot, or the one its prompt is open on. */
  lemma ChangedAt(env: Env, c: Core, k: nat, at: Target, leaf: Leaf, lenient: bool)
    requires Resolvable(env.blueprint) && AtWork(env, c, k) && Sound(env, c)
    requires LeafAt(c.nodes, at) && Next(env, c).nodes == SetLeaf(c.nodes, at, leaf)
    requires Placed(env, c, LeafChange(at, leaf))
    requires if lenient then !Retold(env, c) else !Understated(env, c)
    ensures GoesOn(c.control) && !Terminal(GetLeaf(c.nodes, at).state)
    ensures Follows(c, Next(env, c), at, GetLeaf(c.nodes, at), leaf, lenient)
  {
    hide Next, Runnable, SetLeaf, Retold, Understated;
    if c.control.Prompting? {
      var step :| PromptOpen(env, c.nodes, k, at, step);
      hide AtWork, ControlFits, Unanswered, Advances;
      AnswerAdvances(env, c, at);
    } else {
      var step := SelectMove(env.blueprint, c.nodes).step;
      FrontierSlot(env, c, k, at, step);
      hide SelectMove, AtWork, Follows;
      SlotFollows(env, c, at, step, lenient);
    }
  }

  lemma RunningIsOpen(env: Env, nodes: seq<Node>, k: nat, p: Place)
    requires LiveTree(env, nodes, k) && HasLeaf(nodes, p) && LeafOf(nodes, p).attempts != []
    ensures var leaf := RecoverLeaf(LeafOf(nodes, p));
            && leaf.attempts != [] && !leaf.state.Running?
            && Last(leaf.attempts).number == Last(LeafOf(nodes, p).attempts).number
            && (Terminal(LeafOf(nodes, p).state) ==> Terminal(leaf.state))
  {
    hide LiveTree;
    LeafRecorded(env, nodes, k, p);
  }

  lemma PlainStays(c: Core, c1: Core, p: Place, number: nat, lenient: bool)
    requires Behind(c, p, number, lenient) && HasLeaf(c1.nodes, p) && LeafOf(c1.nodes, p) == LeafOf(c.nodes, p)
    requires (GoesOn(c1.control) ==> GoesOn(c.control)) && (Excused(c, p) ==> c1.control.Halted?)
    ensures Behind(c1, p, number, lenient)
  {
    hide HasLeaf, LeafOf, LeafAt, PlaceOf;
  }

  /** The leaf that changed, or another one. */
  lemma LeafStays(c: Core, c1: Core, at: Target, leaf: Leaf, p: Place, number: nat, lenient: bool)
    requires Behind(c, p, number, lenient) && GoesOn(c.control)
    requires LeafAt(c.nodes, at) && !Terminal(GetLeaf(c.nodes, at).state) && LeafAt(c1.nodes, at)
    requires PlaceOf(c1.nodes, at) == PlaceOf(c.nodes, at) && (c.control.Prompting? ==> c.control.at == at)
    requires HasLeaf(c1.nodes, p)
    requires LeafOf(c1.nodes, p) == if p == PlaceOf(c.nodes, at) then leaf else LeafOf(c.nodes, p)
    requires Follows(c, c1, at, GetLeaf(c.nodes, at), leaf, lenient)
    requires c1.nodes == c.nodes && !GoesOn(c1.control) ==> c1.control.Halted? || !Excused(c, p)
    ensures Behind(c1, p, number, lenient)
  {
    hide HasLeaf, LeafOf, LeafAt;
  }

  lemma AnswerChanges(env: Env, c: Core, at: Target)
    requires Sound(env, c) && c.control == Prompting(at)
    ensures LeafAt(c.nodes, at)
    ensures if c.replies == [] || c.replies[0].Interrupt? then
              Next(env, c).nodes == c.nodes && Next(env, c).control.Halted?
            else LeafAt(Next(env, c).nodes, at) && Allowed(c.nodes, LeafChange(at, GetLeaf(Next(env, c).nodes, at)))
                 && Next(env, c).nodes == SetLeaf(c.nodes, at, GetLeaf(Next(env, c).nodes, at))
  {
    NextAnswers(env, c, at);
    hide Next, Runnable;
    if c.replies != [] && c.replies[0].Reply? {
      var (action, recorded) := ApplyPromptDecision(c.replies[0].step,
                                                    Last(GetLeaf(c.nodes, at).attempts).result.value);
      ActionEffect(c.(replies := c.replies[1..]), at, action, recorded, Some(RunRunning));
    }
    hide ApplyAction;
  }

  /** A leaf change at this place, as the lemmas above take it. */
  lemma LeafChangeStays(env: Env, c: Core, k: nat, at: Target, leaf: Leaf, p: Place, number: nat, lenient: bool)
    requires Resolvable(env.blueprint) && AtWork(env, c, k) && Sound(env, c)
    requires if lenient then !Retold(env, c) else !Understated(env, c)
    requires Allowed(c.nodes, LeafChange(at, leaf)) && Placed(env, c, LeafChange(at, leaf))
    requires Next(env, c).nodes == SetLeaf(c.nodes, at, leaf)
    requires c.control.Prompting? ==>
               c.control.at == at && (Next(env, c).nodes == c.nodes ==> Next(env, c).control.Halted?)
    requires Behind(c, p, number, lenient)
    ensures Behind(Next(env, c), p, number, lenient)
  {
    hide Next, Runnable, SelectMove, AtWork, Retold, Understated, Sound, SetLeaf, Behind, Follows;
    ChangedAt(env, c, k, at, leaf, lenient);
    PlaceStays(c.nodes, at, leaf);
    BehindHas(c, p, number, lenient);
    ChangedKeeps(c.nodes, LeafChange(at, leaf), p);
    ChangedLeaf(c.nodes, LeafChange(at, leaf), p);
    hide HasLeaf, LeafOf, LeafAt, PlaceOf, Allowed, Placed;
    LeafStays(c, Next(env, c), at, leaf, p, number, lenient);
  }

  lemma BehindHas(c: Core, p: Place, number: nat, lenient: bool)
    requires Behind(c, p, number, lenient)
    ensures HasLeaf(c.nodes, p)
  {
  }

  lemma RecoveryStays(env: Env, c: Core, k: nat, p: Place, number: nat, lenient: bool)
    requires AtWork(env, c, k) && Sound(env, c) && c.control.Starting? && Behind(c, p, number, lenient)
    ensures Behind(Next(env, c), p, number, lenient)
  {
    assert Next(env, c) == c.(nodes := Recover(c.nodes), control := Ready) by { hide ApplyMove, Runnable; }
    hide Next, Runnable, LiveTree;
    RunningIsOpen(env, c.nodes, k, p);
    ChangedKeeps(c.nodes, Recovered, p);
    ChangedLeaf(c.nodes, Recovered, p);
    hide HasLeaf, LeafOf, RecoverLeaf;
  }

  lemma FailingStays(env: Env, c: Core, p: Place, number: nat, lenient: bool)
    requires Sound(env, c) && c.control.FailingLoop? && Behind(c, p, number, lenient)
    ensures Behind(Next(env, c), p, number, lenient)
  {
    assert Next(env, c).control.Halted? by { hide ApplyMove, Runnable; }
    var change := NextChanges(env, c);
    hide Next, Runnable;
    BehindHas(c, p, number, lenient);
    ChangedKeeps(c.nodes, change, p);
    ChangedLeaf(c.nodes, change, p);
    hide Behind, Changed, HasLeaf, LeafOf;
    PlainStays(c, Next(env, c), p, number, lenient);
  }

  /** A number that was behind stays behind. */
  lemma StaysBehind(env: Env, c: Core, k: nat, p: Place, number: nat, lenient: bool)
    requires Resolvable(env.blueprint) && AtWork(env, c, k) && Sound(env, c)
    requires if lenient then !Retold(env, c) else !Understated(env, c)
    requires Behind(c, p, number, lenient)
    ensures Behind(Next(env, c), p, number, lenient)
  {
    hide Next, Runnable, SelectMove, AtWork, Retold, Understated, Behind;
    match c.control
    case Halted(_) => HaltedStays(env, c);
    case Starting => RecoveryStays(env, c, k, p, number, lenient);
    case FailingLoop(_) => FailingStays(env, c, p, number, lenient);
    case Prompting(at) => PromptStays(env, c, k, p, number, lenient);
    case Ready => ReadyStays(env, c, k, p, number, lenient);
  }

  lemma PromptStays(env: Env, c: Core, k: nat, p: Place, number: nat, lenient: bool)
    requires Resolvable(env.blueprint) && AtWork(env, c, k) && Sound(env, c) && c.control.Prompting?
    requires if lenient then !Retold(env, c) else !Understated(env, c)
    requires Behind(c, p, number, lenient)
    ensures Behind(Next(env, c), p, number, lenient)
  {
    hide Next, Runnable, SelectMove, AtWork, Retold, Understated, Behind;
    var at := c.control.at;
    AnswerChanges(env, c, at);
    BehindHas(c, p, number, lenient);
    if c.replies == [] || c.replies[0].Interrupt? {
      PlainStays(c, Next(env, c), p, number, lenient);
    } else {
      AnswerMoves(env, c, k, at);
      LeafChangeStays(env, c, k, at, GetLeaf(Next(env, c).nodes, at), p, number, lenient);
    }
  }

  lemma AnswerMoves(env: Env, c: Core, k: nat, at: Target)
    requires AtWork(env, c, k) && Sound(env, c) && c.control == Prompting(at) && c.replies != [] && c.replies[0].Reply?
    ensures Next(env, c).nodes != c.nodes
  {
    var step :| PromptOpen(env, c.nodes, k, at, step);
    hide LiveTree, AtFrontier, Runnable;
    NextAnswers(env, c, at);
    hide Next;
    var c1 := AnswerPrompt(env, c, at).core;
    assert !GetLeaf(c1.nodes, at).state.Paused?;
  }

  lemma ReadyStays(env: Env, c: Core, k: nat, p: Place, number: nat, lenient: bool)
    requires Resolvable(env.blueprint) && AtWork(env, c, k) && Sound(env, c) && c.control.Ready?
    requires if lenient then !Retold(env, c) else !Understated(env, c)
    requires Behind(c, p, number, lenient)
    ensures Behind(Next(env, c), p, number, lenient)
  {
    hide Next, Runnable, SelectMove, AtWork, Retold, Understated, Behind, Sound;
    var change := NextChanges(env, c);
    BehindHas(c, p, number, lenient);
    if change.LeafChange? {
      LeafChangeStays(env, c, k, change.at, change.leaf, p, number, lenient);
    } else {
      ChangedKeeps(c.nodes, change, p);
      ChangedLeaf(c.nodes, change, p);
      hide HasLeaf, LeafOf, Changed, Allowed, Placed;
      PlainStays(c, Next(env, c), p, number, lenient);
    }
  }

  /** A call is made at a running leaf of the frontier, with the number its last attempt has. */
  lemma CallIs(env: Env, c: Core, k: nat)
    requires Resolvable(env.blueprint) && AtWork(env, c, k) && Sound(env, c) && InCall(env, c)
    ensures var move := SelectMove(env.blueprint, c.nodes);
            && LeafAt(c.nodes, move.at) && GetLeaf(c.nodes, move.at).attempts != []
            && GetLeaf(c.nodes, move.at).state.Running?
            && MissedCall(env, c) == [ExecutionOf(c.nodes, move.at, move.step)]
            && Where(SpotOf(c.nodes, move.at)) == PlaceOf(c.nodes, move.at)
  {
    var move := SelectMove(env.blueprint, c.nodes);
    FrontierSlot(env, c, k, move.at, move.step);
    hide SelectMove, AtWork, Outcomes, Numbered;
    SpotPlace(env, c.nodes, k, move.at, move.step);
    SlotSelected(env, c.nodes, move.at, move.step);
    hide LiveTree, Runnable, LiveLeaf;
  }

  /** The call made next has a number above all earlier ones of its leaf. */
  lemma CallAscends(env: Env, c: Core, k: nat, lenient: bool)
    requires Resolvable(env.blueprint) && AtWork(env, c, k) && Sound(env, c) && Logged(c, lenient)
    requires Ascending(c.executed)
    ensures Ascending(c.executed + MissedCall(env, c))
  {
    hide SelectMove, AtWork, Where, SpotOf, PlaceOf, HasLeaf, LeafOf, LeafAt;
    if InCall(env, c) {
      CallIs(env, c, k);
      var at := SelectMove(env.blueprint, c.nodes).at;
      var x := MissedCall(env, c)[0];
      hide Runnable, MissedCall;
      forall i | 0 <= i < |c.executed| && c.executed[i].spot == x.spot
        ensures c.executed[i].attempt < x.attempt
      {
        assert Behind(c, Where(x.spot), c.executed[i].attempt, lenient);
      }
    } else {
      assert c.executed + [] == c.executed;
    }
  }

  /** And it is behind once its result is settled. */
  lemma CallBehind(env: Env, c: Core, k: nat, lenient: bool)
    requires Resolvable(env.blueprint) && AtWork(env, c, k) && Sound(env, c) && InCall(env, c)
    requires if lenient then !Retold(env, c) else !Understated(env, c)
    ensures var x := MissedCall(env, c)[0];
            |MissedCall(env, c)| == 1 && Behind(Next(env, c), Where(x.spot), x.attempt, lenient)
  {
    hide Next, SelectMove, Runnable, AtWork, MissedCall, Where, SpotOf, SetLeaf, Retold, Understated, PlaceOf;
    hide HasLeaf, LeafOf;
    CallIs(env, c, k);
    var move := SelectMove(env.blueprint, c.nodes);
    var at := move.at;
    SlotFollows(env, c, at, move.step, lenient);
    var a, b := GetLeaf(c.nodes, at), GetLeaf(Next(env, c).nodes, at);
    CallEffect(env, c, k);
    PlaceStays(c.nodes, at, b);
    assert LeafOf(Next(env, c).nodes, PlaceOf(c.nodes, at)) == b;
  }

  lemma CallEffect(env: Env, c: Core, k: nat)
    requires Resolvable(env.blueprint) && AtWork(env, c, k) && Sound(env, c) && InCall(env, c)
    ensures var at := SelectMove(env.blueprint, c.nodes).at;
            && LeafAt(c.nodes, at) && LeafAt(Next(env, c).nodes, at)
            && Next(env, c).nodes == SetLeaf(c.nodes, at, GetLeaf(Next(env, c).nodes, at))
  {
    var move := SelectMove(env.blueprint, c.nodes);
    SlotSelected(env, c.nodes, move.at, move.step);
    NextIsSlot(env, c, move.at, move.step);
    hide Next, SelectMove, Runnable, AdvanceSlot, AtWork, SetLeaf;
    SlotEffect(env, c, move.at, move.step);
    SetLeafSame(c.nodes, move.at);
  }

  lemma StepKeeps(env: Env, c: Core, k: nat, lenient: bool)
    requires Resolvable(env.blueprint) && AtWork(env, c, k) && Sound(env, c) && Logged(c, lenient)
    requires Ascending(c.executed)
    requires if lenient then !Retold(env, c) else !Understated(env, c)
    ensures Logged(Next(env, c), lenient) && Ascending(Next(env, c).executed)
  {
    hide Next, SelectMove, Runnable, AtWork, Retold, Understated, Behind, Sound, Where;
    NextLogs(env, c);
    CallAscends(env, c, k, lenient);
    if InCall(env, c) { CallBehind(env, c, k, lenient); }
    hide Ascending;
    var xs := Next(env, c).executed;
    forall i | 0 <= i < |xs|
      ensures Behind(Next(env, c), Where(xs[i].spot), xs[i].attempt, lenient)
    {
      if i < |c.executed| {
        assert xs[i] == c.executed[i];
        StaysBehind(env, c, k, Where(xs[i].spot), xs[i].attempt, lenient);
      }
    }
  }

  // ---- whole runs ----

  lemma NeverRetoldNext(env: Env, c: Core)
    requires Sound(env, c) && NeverRetold(env, c)
    ensures !Retold(env, c) && NeverRetold(env, Next(env, c))
  {
    hide Retold, Next;
    assert Steps(env, c, 0) == c;
    forall n: nat
      ensures !Retold(env, Steps(env, Next(env, c), n))
    {
      assert Steps(env, c, n + 1) == Steps(env, Next(env, c), n);
    }
  }

  lemma {:induction false} GoodRun(env: Env, c: Core, k: nat)
    requires Resolvable(env.blueprint) && AtWork(env, c, k) && Sound(env, c) && Logged(c, true) && Ascending(c.executed)
    requires NeverRetold(env, c)
    ensures Ascending(Final(env, c).executed)
    decreases |c.replies|, Rank(c.nodes), ControlRank(c.control)
  {
    hide Next, AtWork, Logged, Ascending, Retold, NeverRetold, Sound, Rank, ControlRank;
    if !c.control.Halted? {
      NeverRetoldNext(env, c);
      StepKeeps(env, c, k, true);
      var k1 := ProposeKeeps(env, c, k);
      NextBelow(env, c);
      GoodRun(env, Next(env, c), k1);
    }
  }

  /** A call with this number at this spot has been logged. */
  predicate LoggedAt(xs: seq<Execution>, i: nat, spot: Spot, number: nat) {
    i < |xs| && xs[i].spot == spot && xs[i].attempt == number
  }

  lemma PrefixLogged(xs: seq<Execution>, ys: seq<Execution>, i: nat, j: nat, spot: Spot, m: nat, n: nat)
    requires xs <= ys && i < j && LoggedAt(xs, i, spot, n) && LoggedAt(xs, j, spot, m) && m <= n
    ensures !Ascending(ys)
  {
    assert ys[i].spot == ys[j].spot && ys[i].attempt >= ys[j].attempt;
  }

  /** The open attempt as the interpreter's refinement takes it. */
  lemma CallOpens(env: Env, c: Core, k: nat) returns (earlier: seq<Attempt>, number: nat)
    requires Resolvable(env.blueprint) && AtWork(env, c, k) && Sound(env, c) && InCall(env, c)
    ensures var move := SelectMove(env.blueprint, c.nodes);
            && AtOpenAttempt(env, c, move.at, move.step, earlier, number)
            && MissedCall(env, c) == [ExecutionOf(c.nodes, move.at, move.step)]
            && GetLeaf(c.nodes, move.at).attempts != [] && Last(GetLeaf(c.nodes, move.at).attempts).number == number
  {
    hide SelectMove, AtWork, MissedCall, Runnable, LiveTree, PlaceOf, Where, Outcomes;
    CallIs(env, c, k);
    var move := SelectMove(env.blueprint, c.nodes);
    FrontierSlot(env, c, k, move.at, move.step);
    var attempts := GetLeaf(c.nodes, move.at).attempts;
    earlier := attempts[..|attempts| - 1];
    number := Last(attempts).number;
    assert attempts == earlier + [Last(attempts)];
  }

  /** An understating result that is retried makes the next call's number no larger. */
  lemma RetoldRepeats(env: Env, c: Core, k: nat)
    requires Resolvable(env.blueprint) && AtWork(env, c, k) && Sound(env, c) && Retold(env, c)
    ensures !Ascending(Final(env, c).executed)
  {
    hide Next, AtWork, Runnable, SelectMove, Final, Ascending, MissedCall, AtOpenAttempt, Outcomes, Numbered, SpotOf;
    var move := SelectMove(env.blueprint, c.nodes);
    var at, step := move.at, move.step;
    var earlier, number := CallOpens(env, c, k);
    var result := c.replies[0].result;
    var c1 := PromptAfter(env, c, at, step, earlier, number, result);
    PromptReopens(env, c, c1, at, step, earlier, number, result, Outcomes(c.nodes));
    var c2 := Next(env, c1);
    ReopenedCall(env, c2, at, step, FinishedAttempts(earlier, result), result.attempts + 1);
    NextLogs(env, c);
    NextLogs(env, c2);
    FinalUnfolds(env, c);
    FinalUnfolds(env, c1);
    FinalUnfolds(env, c2);
    var c3 := Next(env, c2);
    FinalHaving(env, c3, []);
    var n := |c.executed|;
    assert c3.executed[n] == ExecutionOf(c.nodes, at, step) && c3.executed[n + 1] == ExecutionOf(c2.nodes, at, step);
    PrefixLogged(c3.executed, Final(env, c).executed, n, n + 1, SpotOf(c.nodes, at), result.attempts + 1, number);
  }

  lemma ReopenedCall(env: Env, c: Core, at: Target, step: StepDef, earlier: seq<Attempt>, number: nat)
    requires AtOpenAttempt(env, c, at, step, earlier, number)
    ensures LeafAt(c.nodes, at) && GetLeaf(c.nodes, at).attempts != []
    ensures Last(GetLeaf(c.nodes, at).attempts).number == number
    ensures MissedCall(env, c) == [ExecutionOf(c.nodes, at, step)]
  {
    hide SelectMove, Runnable, Outcomes, Numbered;
  }

  /** The prompt opened by a failure someone is asked about. */
  lemma PromptAfter(env: Env, c: Core, at: Target, step: StepDef, earlier: seq<Attempt>, number: nat,
                    result: StepResult)
    returns (c1: Core)
    requires AtOpenAttempt(env, c, at, step, earlier, number) && c.replies != [] && c.replies[0].Reply?
    requires c.replies[0].result == result && result.status.ResultFailed?
    requires Asks(step.onFailure) && env.Interactive()
    ensures AtPrompt(env, c, c1, at, step, earlier, number, result) && Next(env, c) == c1
  {
    hide SelectMove, Runnable, Sound, OpenAttempt, SetLeaf;
    var leaf := RecordResult(GetLeaf(c.nodes, at), result);
    var called := Called(c, at, step).(nodes := SetLeaf(c.nodes, at, leaf));
    AttemptsAfter(earlier, Attempt(number, None), Attempt(result.attempts, Some(result)));
    assert RunAttempt(env, c, at, step) == Gate(env, called, at, step);
    NextRunsAttempt(env, c, at, step, earlier, number);
    SetLeafTwice(c.nodes, at, leaf, PausedLeaf(step, earlier, result));
    c1 := Next(env, c);
  }

  lemma {:induction false} BadRun(env: Env, c: Core, k: nat, n: nat)
    requires Resolvable(env.blueprint) && AtWork(env, c, k) && Sound(env, c) && Retold(env, Steps(env, c, n))
    ensures !Ascending(Final(env, c).executed)
    decreases n
  {
    hide Next, AtWork, Ascending, Retold, Sound, Final;
    if n == 0 {
      RetoldRepeats(env, c, k);
    } else {
      var k1 := ProposeKeeps(env, c, k);
      FinalUnfolds(env, c);
      BadRun(env, Next(env, c), k1, n - 1);
    }
  }

  /** The numbers each leaf's attempts are run with increase over the whole run exactly when it never happens that a
      failed result reporting fewer attempts than the number it was run with is asked about and retried. */
  lemma NumbersIncreaseIff(env: Env, nodes: seq<Node>, k: nat, replies: seq<Reply>)
    requires Resolvable(env.blueprint) && LiveTree(env, nodes, k)
    ensures Sound(env, Loaded(nodes, replies))
    ensures Ascending(Final(env, Loaded(nodes, replies)).executed) <==> NeverRetold(env, Loaded(nodes, replies))
  {
    hide Next, LiveTree, Ascending, Retold, Runnable, Final;
    var c := Loaded(nodes, replies);
    AtWorkSound(env, c, k);
    if NeverRetold(env, c) {
      assert Ascending([]) by { NothingAscends(); }
      GoodRun(env, c, k);
    } else {
      var n: nat :| Retold(env, Steps(env, c, n));
      BadRun(env, c, k, n);
    }
  }

  lemma NothingAscends()
    ensures Ascending([])
  {
  }

  // ---- crashes, restarts and pauses ----

  /** The same over any number of processes, each dying between two commits or at an open prompt: of all their calls
      together, by the crash-free run that CrashesRefine compares them with. */
  lemma NumbersAcrossCrashes(env: Env, nodes: seq<Node>, lives: seq<Life>, last: seq<Reply>)
    requires Crashes(env, nodes, lives)
    ensures Sound(env, Loaded(nodes, Spliced(env, nodes, lives, last)))
    ensures Sound(env, Loaded(TreeAfter(env, nodes, lives), last))
    ensures Ascending(ExecutedBefore(env, nodes, lives)
                      + Final(env, Loaded(TreeAfter(env, nodes, lives), last)).executed)
            <==> NeverRetold(env, Loaded(nodes, Spliced(env, nodes, lives, last)))
  {
    hide Next, Ascending, NeverRetold, Final, Sound, LiveTree, Spliced, TreeAfter, ExecutedBefore;
    CrashesRefine(env, nodes, lives, last);
    var replies := Spliced(env, nodes, lives, last);
    var k := DrivableSound(env, nodes, replies);
    NumbersIncreaseIff(env, nodes, k, replies);
  }

  /** No result any of these processes read before it died understated its number. */
  ghost predicate HonestLives(env: Env, nodes: seq<Node>, lives: seq<Life>)
    requires Crashes(env, nodes, lives)
    decreases |lives|
  {
    lives != [] ==>
      && (LoadedSound(env, nodes, lives[0].replies);
          HonestFor(env, Loaded(nodes, lives[0].replies), lives[0].steps))
      && HonestLives(env, DeathOf(env, nodes, lives[0]).nodes, lives[1..])
  }

  ghost predicate Honest(env: Env, c: Core)
    requires Sound(env, c)
  {
    forall n: nat :: !Understated(env, Steps(env, c, n))
  }

  /** What is logged of a tree nobody is driving. */
  predicate LoggedIn(nodes: seq<Node>, log: seq<Execution>) {
    Logged(Core(nodes, Starting, [], log, false), false)
  }

  lemma {:induction false} StepsHaving(env: Env, c: Core, ex: seq<Execution>, n: nat)
    requires Sound(env, c)
    ensures Sound(env, Having(c, ex)) && c.executed <= Steps(env, c, n).executed
    ensures Steps(env, Having(c, ex), n) == Having(Steps(env, c, n), ex + Steps(env, c, n).executed[|c.executed|..])
    decreases n
  {
    hide Next, Runnable;
    NextHaving(env, c, ex);
    assert c.executed[|c.executed|..] == [] && ex + [] == ex;
    if n > 0 {
      var c1 := Next(env, c);
      var ex1 := ex + c1.executed[|c.executed|..];
      StepsHaving(env, c1, ex1, n - 1);
      var b := Steps(env, c1, n - 1);
      assert ex1 + b.executed[|c1.executed|..] == ex + b.executed[|c.executed|..];
    }
  }

  lemma UnderstatedHaving(env: Env, c: Core, ex: seq<Execution>)
    requires Sound(env, c)
    ensures Sound(env, Having(c, ex)) && (Understated(env, Having(c, ex)) <==> Understated(env, c))
    ensures MissedCall(env, Having(c, ex)) == MissedCall(env, c)
  {
    hide Runnable, SelectMove, Outcomes, Numbered;
  }

  lemma {:induction false} HonestSteps(env: Env, c: Core, k: nat, n: nat) returns (k': nat)
    requires Resolvable(env.blueprint) && AtWork(env, c, k) && Sound(env, c) && Logged(c, false)
    requires Ascending(c.executed)
    requires HonestFor(env, c, n)
    ensures AtWork(env, Steps(env, c, n), k')
    ensures Logged(Steps(env, c, n), false) && Ascending(Steps(env, c, n).executed)
    decreases n
  {
    hide Next, AtWork, Logged, Ascending, Understated, Sound;
    k' := k;
    if n > 0 {
      assert Steps(env, c, 0) == c;
      StepKeeps(env, c, k, false);
      k' := ProposeKeeps(env, c, k);
      forall i: nat | i < n - 1
        ensures !Understated(env, Steps(env, Next(env, c), i))
      {
        assert Steps(env, c, i + 1) == Steps(env, Next(env, c), i);
      }
      k' := HonestSteps(env, Next(env, c), k', n - 1);
    }
  }

  /** A process that goes on from a tree with a log: at its death the log, with the call it may have been in, fits. */
  lemma HonestDeath(env: Env, nodes: seq<Node>, life: Life, log: seq<Execution>)
    requires Drivable(env, nodes) && LoggedIn(nodes, log) && Ascending(log)
    requires Sound(env, Loaded(nodes, life.replies)) && HonestFor(env, Loaded(nodes, life.replies), life.steps)
    requires GoesOn(DeathOf(env, nodes, life).control) || DeathOf(env, nodes, life).control.Starting?
    ensures var d := DeathOf(env, nodes, life);
            && Sound(env, d) && Ascending(log + (d.executed + MissedCall(env, d)))
            && LoggedIn(d.nodes, log + (d.executed + MissedCall(env, d)))
  {
    hide Next, AtWork, Ascending, Understated, Runnable, Behind, LiveTree, MissedCall, InCall, DeathOf, Steps;
    var k := DrivableSound(env, nodes, life.replies);
    var c := Loaded(nodes, life.replies);
    var a := Having(c, log);
    LoadedHonest(env, c, log, life.steps);
    AtWorkHaving(env, c, log, k);
    LogsAnyReplies(nodes, log, a);
    var k1 := HonestSteps(env, a, k, life.steps);
    StepsHaving(env, c, log, life.steps);
    DeathIs(env, nodes, life);
    var d := DeathOf(env, nodes, life);
    var e := Steps(env, a, life.steps);
    assert e == Having(d, log + d.executed[0..]) && d.executed[0..] == d.executed;
    UnderstatedHaving(env, d, log + d.executed);
    assert log + (d.executed + MissedCall(env, d)) == e.executed + MissedCall(env, e);
    CallAscends(env, e, k1, false);
    DeathLogs(env, e, k1);
  }

  lemma DeathIs(env: Env, nodes: seq<Node>, life: Life)
    requires Drivable(env, nodes)
    ensures Sound(env, Loaded(nodes, life.replies))
    ensures DeathOf(env, nodes, life) == Steps(env, Loaded(nodes, life.replies), life.steps)
  {
    LoadedSound(env, nodes, life.replies);
  }

  lemma LoadedHonest(env: Env, c: Core, log: seq<Execution>, n: nat)
    requires Sound(env, c) && HonestFor(env, c, n)
    ensures Sound(env, Having(c, log)) && HonestFor(env, Having(c, log), n)
  {
    hide Runnable, Understated, Steps;
    forall i: nat | i < n
      ensures Sound(env, Having(c, log)) && !Understated(env, Steps(env, Having(c, log), i))
    {
      StepsHaving(env, c, log, i);
      UnderstatedHaving(env, Steps(env, c, i), log + Steps(env, c, i).executed[|c.executed|..]);
    }
  }

  lemma LogsAnyReplies(nodes: seq<Node>, log: seq<Execution>, a: Core)
    requires LoggedIn(nodes, log) && a == Having(Loaded(nodes, a.replies), log)
    ensures Logged(a, false) && Logged(a, true)
  {
    forall i | 0 <= i < |log|
      ensures Behind(a, Where(log[i].spot), log[i].attempt, false)
    {
      assert Behind(Core(nodes, Starting, [], log, false), Where(log[i].spot), log[i].attempt, false);
    }
  }

  lemma DeathLogs(env: Env, e: Core, k: nat)
    requires Resolvable(env.blueprint) && AtWork(env, e, k) && Sound(env, e) && Logged(e, false)
    ensures LoggedIn(e.nodes, e.executed + MissedCall(env, e))
  {
    var log := e.executed + MissedCall(env, e);
    var r := Core(e.nodes, Starting, [], log, false);
    if InCall(env, e) { CallIs(env, e, k); }
    hide AtWork, Runnable, SelectMove, Where, HasLeaf, LeafOf, Outcomes, Numbered;
    forall i | 0 <= i < |log|
      ensures Behind(r, Where(log[i].spot), log[i].attempt, false)
    {
      if i < |e.executed| {
        assert log[i] == e.executed[i];
        assert Behind(e, Where(log[i].spot), log[i].attempt, false);
      } else {
        assert InCall(env, e);
      }
    }
  }

  lemma AtWorkHaving(env: Env, c: Core, ex: seq<Execution>, k: nat)
    requires AtWork(env, c, k)
    ensures AtWork(env, Having(c, ex), k)
  {
    hide LiveTree, BrokenTree;
  }

  /** The induction, with a log of what processes before these called. */
  lemma {:induction false} HonestLivesAscend(env: Env, nodes: seq<Node>, lives: seq<Life>, last: seq<Reply>,
                                             log: seq<Execution>)
    requires Crashes(env, nodes, lives) && HonestLives(env, nodes, lives)
    requires Sound(env, Loaded(TreeAfter(env, nodes, lives), last))
    requires Honest(env, Loaded(TreeAfter(env, nodes, lives), last))
    requires LoggedIn(nodes, log) && Ascending(log)
    ensures Ascending(log + (ExecutedBefore(env, nodes, lives)
                             + Final(env, Loaded(TreeAfter(env, nodes, lives), last)).executed))
    decreases |lives|
  {
    hide Next, AtWork, Ascending, Understated, Runnable, LoggedIn, LiveTree, MissedCall, DeathOf, Final, Drivable;
    hide Steps;
    if lives == [] {
      HonestLast(env, nodes, last, log);
      assert [] + Final(env, Loaded(nodes, last)).executed == Final(env, Loaded(nodes, last)).executed;
    } else {
      var d := DeathOf(env, nodes, lives[0]);
      LoadedSound(env, nodes, lives[0].replies);
      HonestDeath(env, nodes, lives[0], log);
      var call := d.executed + MissedCall(env, d);
      HonestLivesAscend(env, d.nodes, lives[1..], last, log + call);
      var rest := ExecutedBefore(env, d.nodes, lives[1..]);
      var end := Final(env, Loaded(TreeAfter(env, nodes, lives), last)).executed;
      assert log + call + (rest + end) == log + (call + rest + end);
    }
  }

  /** Processes whose results report at least the numbers they were run with, as the results of steps that are ready to
      run always do, run each leaf's attempts with increasing numbers, however often they die or pause in between. */
  lemma HonestNumbersIncrease(env: Env, nodes: seq<Node>, lives: seq<Life>, last: seq<Reply>)
    requires Crashes(env, nodes, lives) && HonestLives(env, nodes, lives)
    requires Sound(env, Loaded(TreeAfter(env, nodes, lives), last))
    requires Honest(env, Loaded(TreeAfter(env, nodes, lives), last))
    ensures Ascending(ExecutedBefore(env, nodes, lives)
                      + Final(env, Loaded(TreeAfter(env, nodes, lives), last)).executed)
  {
    var calls := ExecutedBefore(env, nodes, lives) + Final(env, Loaded(TreeAfter(env, nodes, lives), last)).executed;
    hide Crashes, Final, HonestLives, Honest, Runnable;
    HonestLivesAscend(env, nodes, lives, last, []);
    assert [] + calls == calls;
  }

  lemma HonestLast(env: Env, nodes: seq<Node>, last: seq<Reply>, log: seq<Execution>)
    requires Drivable(env, nodes) && LoggedIn(nodes, log) && Ascending(log)
    requires Sound(env, Loaded(nodes, last)) && Honest(env, Loaded(nodes, last))
    ensures Ascending(log + Final(env, Loaded(nodes, last)).executed)
  {
    hide Next, AtWork, Ascending, Understated, Runnable, Behind, LiveTree, Final, Steps;
    var k := DrivableSound(env, nodes, last);
    var c := Loaded(nodes, last);
    var a := Having(c, log);
    AtWorkHaving(env, c, log, k);
    LogsAnyReplies(nodes, log, a);
    forall n: nat
      ensures Sound(env, a) && !Retold(env, Steps(env, a, n))
    {
      StepsHaving(env, c, log, n);
      UnderstatedHaving(env, Steps(env, c, n), log + Steps(env, c, n).executed[|c.executed|..]);
    }
    GoodRun(env, a, k);
    FinalHaving(env, c, log);
    assert Final(env, c).executed[0..] == Final(env, c).executed;
  }

  // ---- the run that goes wrong ----

  /** One failed attempt that is asked about and retried. */
  lemma RetryOnce(env: Env, step: StepDef, spot: Spot, earlier: seq<Attempt>, number: nat, history: seq<Outcome>,
                  w: World)
    requires Asks(step.onFailure) && env.Interactive()
    requires |w.replies| >= 2 && w.replies[0].Reply? && w.replies[0].result.status.ResultFailed?
    requires AnswersRetry(w.replies[1..])
    ensures var r := w.replies[0].result;
            RunStep(env, step, spot, earlier, number, history, w)
            == RunStep(env, step, spot, FinishedAttempts(earlier, r), r.attempts + 1, history,
                       World(w.replies[2..], w.executed + [Execution(step, spot, number, Numbered(history))]))
  {
    assert w.replies[1..][1..] == w.replies[2..];
  }

  /** A step someone is asked about fails, and is then not ready to run when it is retried: its second result says one
      attempt, and the attempt after it is run as number 2 once more. */
  lemma NotReadyRepeats(env: Env, step: StepDef, result: StepResult)
    requires env.blueprint == [StepItem(step)] && Asks(step.onFailure) && env.Interactive()
    requires result.status.ResultFailed? && result.attempts == 1
    ensures Runnable(env.blueprint, PlanNodes(env.blueprint))
    ensures var retried := Reply(result, DecideRetry, AnswerAbort);
            var xs := Final(env, Loaded(PlanNodes(env.blueprint), [retried, retried, retried, retried])).executed;
            && |xs| == 3 && xs[0].spot == xs[1].spot == xs[2].spot
            && xs[0].attempt == 1 && xs[1].attempt == 2 && xs[2].attempt == 2
  {
    hide Final, Runnable, RunStep, Numbered;
    var x := Reply(result, DecideRetry, AnswerAbort);
    var spot := Spot(Top(0), None);
    CoordinatorRefinesInterpreter(env, [x, x, x, x]);
    var w := World([x, x, x, x], []);
    RetryOnce(env, step, spot, [], 1, [], w);
    var w1 := World(w.replies[2..], w.executed + [Execution(step, spot, 1, Numbered([]))]);
    var first := FinishedAttempts([], result);
    RetryOnce(env, step, spot, first, 2, [], w1);
    var w2 := World(w1.replies[2..], w1.executed + [Execution(step, spot, 2, Numbered([]))]);
    LastCall(env, step, spot, FinishedAttempts(first, result), 2, w2);
    PlanOfOne(env, step, w);
  }

  lemma LastCall(env: Env, step: StepDef, spot: Spot, earlier: seq<Attempt>, number: nat, w: World)
    requires w.replies == []
    ensures RunStep(env, step, spot, earlier, number, [], w).world.executed
         == w.executed + [Execution(step, spot, number, Numbered([]))]
  {
  }

  lemma PlanOfOne(env: Env, step: StepDef, w: World)
    ensures RunPlan(env, [StepItem(step)], 0, [], w).world.executed
         == RunStep(env, step, Spot(Top(0), None), [], 1, [], w).world.executed
  {
    hide RunStep;
  }
}
