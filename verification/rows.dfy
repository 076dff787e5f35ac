/** The machine with its durable row: commits are compare-and-swap on the revision, and other writers may
    change or delete the row before any commit (state_store.py, repositories/runs.py). */
module Rows {
  import opened StateModels
  import opened Transitions

  datatype Row = Row(revision: nat, nodes: seq<Node>, status: RunStatus)

  /** What other writers do to the row before one commit: nothing, commits of their own, an update of the status alone,
      or its deletion. */
  datatype Intrusion =
    | Quiet
    | Overwrite(nodes: seq<Node>, extra: nat, status: RunStatus)
    | Restatus(status: RunStatus)
    | DeleteRow

  datatype Machine = Machine(core: Core, revision: nat, row: Option<Row>, intrusions: seq<Intrusion>)

  function Disturb(row: Option<Row>, intrusions: seq<Intrusion>): Option<Row> {
    if row.None? || intrusions == [] then row
    else
      match intrusions[0]
      case Quiet => row
      case Overwrite(nodes, extra, status) => Some(Row(row.value.revision + 1 + extra, nodes, status))
      case Restatus(status) => Some(row.value.(status := status))
      case DeleteRow => None
  }

  /** The intrusions cover all that other writers can leave of a row: nothing, the row under any status, or a later
      revision with any tree and status. */
  lemma IntrusionsCover(row: Row, after: Option<Row>) returns (i: Intrusion)
    requires after.Some? ==>
               after.value.revision > row.revision || after.value == row.(status := after.value.status)
    ensures Disturb(Some(row), [i]) == after
  {
    i := match after
         case None => DeleteRow
         case Some(r) =>
           if r.revision > row.revision then Overwrite(r.nodes, r.revision - row.revision - 1, r.status)
           else Restatus(r.status);
  }

  function Rest<T>(s: seq<T>): seq<T> { if s == [] then [] else s[1..] }

  /** save_execution_state: write exactly when the stored revision is the expected one. */
  predicate Accepts(row: Option<Row>, revision: nat) {
    row.Some? && row.value.revision == revision
  }

  function Written(row: Option<Row>, revision: nat, nodes: seq<Node>, status: Option<RunStatus>): Option<Row>
    requires Accepts(row, revision)
  {
    Some(Row(revision + 1, nodes, if status.Some? then status.value else row.value.status))
  }

  /** The machine after its proposal e, committed or not. */
  function Apply(m: Machine, e: Effect): Machine {
    if !e.commit then m.(core := e.core)
    else
      var row := Disturb(m.row, m.intrusions);
      if Accepts(row, m.revision) then
        Machine(e.core, m.revision + 1, Written(row, m.revision, e.core.nodes, e.status), Rest(m.intrusions))
      else
        Machine(e.core.(control := e.refused, hasError := true), m.revision, row, Rest(m.intrusions))
  }

  function Tick(env: Env, m: Machine): Machine
    requires Sound(env, m.core)
  {
    Apply(m, Propose(env, m.core))
  }
}
