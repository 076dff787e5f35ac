/** Flattened views of the tree: what later steps are given and what a run reports (projection.py). */
module Projection {
  import opened StateModels

  /** One entry of the flattened results: the leaf's name and its terminal result. */
  datatype Outcome = Outcome(name: string, result: StepResult)

  /** PreviousStepMetadata: an outcome with its 1-based position. */
  datatype Metadata = Metadata(index: nat, name: string, result: StepResult)

  function TerminalResult(leaf: Leaf): Option<StepResult> {
    if (leaf.state.Completed? || leaf.state.Ignored? || leaf.state.Failed?) && leaf.attempts != [] then
      Last(leaf.attempts).result
    else
      None
  }

  function LeafOutcomes(leaf: Leaf): seq<Outcome> {
    var r := TerminalResult(leaf);
    if r.Some? then [Outcome(leaf.name, r.value)] else []
  }

  function LeavesOutcomes(leaves: seq<Leaf>): seq<Outcome> {
    if leaves == [] then [] else LeavesOutcomes(leaves[..|leaves| - 1]) + LeafOutcomes(Last(leaves))
  }

  function IterationsOutcomes(its: seq<Iteration>): seq<Outcome> {
    if its == [] then [] else IterationsOutcomes(its[..|its| - 1]) + LeavesOutcomes(Last(its).steps)
  }

  function NodeOutcomes(n: Node): seq<Outcome> {
    match n
    case StepNode(leaf) => LeafOutcomes(leaf)
    case LoopNode(_, _, _, _, _, its, _) => IterationsOutcomes(its)
  }

  /** flatten_step_results, keeping each leaf's name beside its result. */
  function Outcomes(nodes: seq<Node>): seq<Outcome> {
    if nodes == [] then [] else Outcomes(nodes[..|nodes| - 1]) + NodeOutcomes(Last(nodes))
  }

  /** terminal_step_metadata: outcomes numbered from 1 in order. */
  function Numbered(os: seq<Outcome>): (r: seq<Metadata>)
    ensures |r| == |os|
    ensures forall i :: 0 <= i < |r| ==> r[i] == Metadata(i + 1, os[i].name, os[i].result)
  {
    seq(|os|, i requires 0 <= i < |os| => Metadata(i + 1, os[i].name, os[i].result))
  }

  /** iteration_results: terminal body results by step id; a later leaf with the same id wins. */
  function IterationResults(leaves: seq<Leaf>): map<string, StepResult> {
    if leaves == [] then map[]
    else
      var earlier := IterationResults(leaves[..|leaves| - 1]);
      var r := TerminalResult(Last(leaves));
      if r.Some? then earlier[Last(leaves).id := r.value] else earlier
  }

  /** The loop of iteration_results: a body step's id is there exactly when a leaf with it has ended, with the last such
      leaf's result. */
  method CollectIterationResults(leaves: seq<Leaf>) returns (results: map<string, StepResult>)
    ensures results == IterationResults(leaves) && ResultsOf(results, leaves)
  {
    ResultsAre(leaves);
    results := map[];
    for i := 0 to |leaves|
      invariant results == IterationResults(leaves[..i])
    {
      assert leaves[..i + 1][..i] == leaves[..i];
      var r := TerminalResult(leaves[i]);
      if r.Some? {
        results := results[leaves[i].id := r.value];
      }
    }
    assert leaves[..|leaves|] == leaves;
  }

  // ---- what the flattened results are ----

  function IterationsLeaves(its: seq<Iteration>): seq<Leaf> {
    if its == [] then [] else IterationsLeaves(its[..|its| - 1]) + Last(its).steps
  }

  function NodeLeaves(n: Node): seq<Leaf> {
    match n
    case StepNode(leaf) => [leaf]
    case LoopNode(_, _, _, _, _, its, _) => IterationsLeaves(its)
  }

  /** iter_leaves: every leaf in tree order, loops iteration by iteration. */
  function TreeLeaves(nodes: seq<Node>): seq<Leaf> {
    if nodes == [] then [] else TreeLeaves(nodes[..|nodes| - 1]) + NodeLeaves(Last(nodes))
  }

  /** The leaf has completed, was ignored or has failed, and the result of its last attempt is recorded. */
  predicate Ended(leaf: Leaf) {
    && (leaf.state.Completed? || leaf.state.Ignored? || leaf.state.Failed?)
    && leaf.attempts != [] && Last(leaf.attempts).result.Some?
  }

  /** One entry for each ended leaf, in order: its name and the result of its last attempt. */
  function Endings(leaves: seq<Leaf>): seq<Outcome> {
    if leaves == [] then []
    else
      Endings(leaves[..|leaves| - 1])
      + (if Ended(Last(leaves)) then [Outcome(Last(leaves).name, Last(Last(leaves).attempts).result.value)] else [])
  }

  /** The flattened results of any tree are the endings of its leaves, in tree order. */
  lemma {:induction false} OutcomesAre(nodes: seq<Node>)
    ensures Outcomes(nodes) == Endings(TreeLeaves(nodes))
  {
    hide NodeOutcomes, NodeLeaves, Endings;
    if nodes == [] {
      EndingsOfNone();
    } else {
      OutcomesAre(nodes[..|nodes| - 1]);
      NodeOutcomesAre(Last(nodes));
      EndingsConcat(TreeLeaves(nodes[..|nodes| - 1]), NodeLeaves(Last(nodes)));
    }
  }

  lemma NodeOutcomesAre(n: Node)
    ensures NodeOutcomes(n) == Endings(NodeLeaves(n))
  {
    if n.StepNode? {
      assert [n.leaf][..0] == [] && LeafOutcomes(n.leaf) == Endings([n.leaf]);
    } else {
      IterationsOutcomesAre(n.iterations);
    }
  }

  lemma {:induction false} IterationsOutcomesAre(its: seq<Iteration>)
    ensures IterationsOutcomes(its) == Endings(IterationsLeaves(its))
  {
    hide LeavesOutcomes, Endings;
    if its == [] {
      EndingsOfNone();
    } else {
      IterationsOutcomesAre(its[..|its| - 1]);
      LeavesOutcomesAre(Last(its).steps);
      EndingsConcat(IterationsLeaves(its[..|its| - 1]), Last(its).steps);
    }
  }

  lemma {:induction false} LeavesOutcomesAre(leaves: seq<Leaf>)
    ensures LeavesOutcomes(leaves) == Endings(leaves)
  {
    if leaves != [] { LeavesOutcomesAre(leaves[..|leaves| - 1]); }
  }

  lemma EndingsOfNone()
    ensures Endings([]) == []
  {
  }

  lemma {:induction false} EndingsConcat(a: seq<Leaf>, b: seq<Leaf>)
    ensures Endings(a + b) == Endings(a) + Endings(b)
  {
    hide Ended;
    if b == [] {
      assert a + b == a;
    } else {
      assert (a + b)[..|a + b| - 1] == a + b[..|b| - 1];
      assert Last(a + b) == Last(b);
      EndingsConcat(a, b[..|b| - 1]);
    }
  }

  /** Leaf i is the last one with this id that has ended. */
  predicate LastEnded(leaves: seq<Leaf>, i: nat, id: string) {
    && i < |leaves| && Ended(leaves[i]) && leaves[i].id == id
    && forall j :: i < j < |leaves| && leaves[j].id == id ==> !Ended(leaves[j])
  }

  /** The results of a body by step id: there is one exactly for the ids of ended leaves, the last such leaf's. */
  ghost predicate ResultsOf(results: map<string, StepResult>, leaves: seq<Leaf>) {
    && (forall id :: id in results ==> exists i :: 0 <= i < |leaves| && LastEnded(leaves, i, id))
    && (forall i, id :: 0 <= i < |leaves| && LastEnded(leaves, i, id) ==>
          id in results && results[id] == Last(leaves[i].attempts).result.value)
    && (forall i :: 0 <= i < |leaves| && Ended(leaves[i]) ==> leaves[i].id in results)
  }

  lemma ResultsAre(leaves: seq<Leaf>)
    ensures ResultsOf(IterationResults(leaves), leaves)
  {
    hide IterationResults;
    var results := IterationResults(leaves);
    forall id | id in results
      ensures exists i :: 0 <= i < |leaves| && LastEnded(leaves, i, id)
    {
      ResultsAt(leaves, id);
    }
    forall i, id | 0 <= i < |leaves| && LastEnded(leaves, i, id)
      ensures id in results && results[id] == Last(leaves[i].attempts).result.value
    {
      ResultsAt(leaves, id);
    }
    forall i | 0 <= i < |leaves| && Ended(leaves[i])
      ensures leaves[i].id in results
    {
      ResultsAt(leaves, leaves[i].id);
    }
  }

  lemma {:induction false} ResultsAt(leaves: seq<Leaf>, id: string)
    ensures id in IterationResults(leaves) <==> exists i :: 0 <= i < |leaves| && LastEnded(leaves, i, id)
    ensures forall i :: 0 <= i < |leaves| && LastEnded(leaves, i, id) ==>
              id in IterationResults(leaves)
              && IterationResults(leaves)[id] == Last(leaves[i].attempts).result.value
    ensures forall i :: 0 <= i < |leaves| && Ended(leaves[i]) && leaves[i].id == id ==> id in IterationResults(leaves)
  {
    if leaves != [] {
      var n := |leaves| - 1;
      var rest := leaves[..n];
      ResultsAt(rest, id);
      if Ended(leaves[n]) && leaves[n].id == id {
        assert LastEnded(leaves, n, id);
      } else {
        assert forall i :: 0 <= i < n ==> rest[i] == leaves[i];
        assert forall i :: 0 <= i < n ==> LastEnded(rest, i, id) == LastEnded(leaves, i, id);
      }
    }
  }

  lemma {:induction false} LeavesOutcomesConcat(a: seq<Leaf>, b: seq<Leaf>)
    ensures LeavesOutcomes(a + b) == LeavesOutcomes(a) + LeavesOutcomes(b)
  {
    hide LeafOutcomes;
    if b == [] {
      assert a + b == a;
    } else {
      assert (a + b)[..|a + b| - 1] == a + b[..|b| - 1];
      assert Last(a + b) == Last(b);
      LeavesOutcomesConcat(a, b[..|b| - 1]);
    }
  }
}
