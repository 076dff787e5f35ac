/** The two layers together: runs whose attempts return what step execution returns obey their policies, and number
    their attempts upwards while their steps are ready. */
module ReadyRuns {
  import opened StateModels
  import opened Transitions
  import opened Solo
  import opened Refinement
  import opened Frontier
  import opened Restart
  import opened Attempts
  import opened Policies
  import StepExecution

  /** What StepExecution.Run returns for a step run with this number, ready or not. */
  predicate Executed(step: StepDef, number: nat, ready: bool, r: StepResult) {
    if ready then StepExecution.Returnable(step, number, r) else r.status.ResultFailed? && r.attempts == 1
  }

  /** If an attempt is answered now, it is with such a result. */
  predicate AnsweredBy(env: Env, c: Core, ready: bool)
    requires Sound(env, c)
  {
    InCall(env, c) && c.replies != [] && c.replies[0].Reply? ==>
      var move := SelectMove(env.blueprint, c.nodes); var attempts := GetLeaf(c.nodes, move.at).attempts;
      attempts != [] && Executed(move.step, Last(attempts).number, ready, c.replies[0].result)
  }

  /** Every attempt of the run is answered by step execution. */
  ghost predicate AllExecuted(env: Env, c: Core)
    requires Sound(env, c)
  {
    forall n: nat :: AnsweredBy(env, Steps(env, c, n), true) || AnsweredBy(env, Steps(env, c, n), false)
  }

  /** And every step it runs is ready. */
  ghost predicate AllReady(env: Env, c: Core)
    requires Sound(env, c)
  {
    forall n: nat :: AnsweredBy(env, Steps(env, c, n), true)
  }

  lemma ExecutedIsPlausible(env: Env, c: Core, n: nat)
    requires Sound(env, c) && AllExecuted(env, c)
    ensures PlausibleFor(env, c, n)
  {
    hide Runnable, SelectMove, Steps;
    forall i: nat | i < n
      ensures Plausible(env, Steps(env, c, i))
    {
      assert AnsweredBy(env, Steps(env, c, i), true) || AnsweredBy(env, Steps(env, c, i), false);
    }
  }

  lemma ReadyIsHonest(env: Env, c: Core)
    requires Sound(env, c) && AllReady(env, c)
    ensures Honest(env, c) && NeverRetold(env, c)
  {
    hide Runnable, SelectMove, Steps;
    forall n: nat
      ensures !Understated(env, Steps(env, c, n))
    {
      assert AnsweredBy(env, Steps(env, c, n), true);
    }
  }

  /** A fresh run whose attempts are answered by step execution obeys its policies in every tree; with all its steps
      ready, it also runs each leaf with increasing numbers. */
  lemma FreshRuns(env: Env, replies: seq<Reply>, n: nat)
    requires Resolvable(env.blueprint) && Sound(env, Loaded(PlanNodes(env.blueprint), replies))
    ensures var c := Loaded(PlanNodes(env.blueprint), replies);
            && (AllExecuted(env, c) ==> Obeyed(env, Steps(env, c, n).nodes))
            && (AllReady(env, c) ==> Ascending(Final(env, c).executed))
  {
    hide Runnable, Final, Steps, AtWork, Obeyed, Ascending, LiveTree, PlanNodes;
    var c := Loaded(PlanNodes(env.blueprint), replies);
    PlanLive(env);
    LoadedAtWork(env, PlanNodes(env.blueprint), replies, 0);
    if AllExecuted(env, c) {
      PlanObeys(env);
      ExecutedIsPlausible(env, c, n);
      var _ := PoliciesHold(env, c, 0, n);
    }
    if AllReady(env, c) {
      ReadyIsHonest(env, c);
      NumbersIncreaseIff(env, PlanNodes(env.blueprint), 0, replies);
    }
  }
}
