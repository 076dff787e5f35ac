/** The row and run.json over any history of commits, status updates, failed or lost projection writes and loads
    (state_store.py). The row is written first, run.json after it, and a crash may come between. */
module StoreHistory {
  import opened StateModels
  import opened Projection
  import opened Rows
  import opened StateStore

  /** pending are the projections that writers have built and not yet written; readers the rows that loads in progress
      have read; trees what was committed at each revision, statuses what the row's status has been at each. */
  datatype Store = Store(row: Row, json: Option<Payload>, pending: seq<Payload>, readers: seq<Row>,
                         trees: seq<seq<Node>>, statuses: seq<set<RunStatus>>)

  datatype Event =
    | CommitTree(nodes: seq<Node>, status: Option<RunStatus>)  // save: the row is committed, its projection built
    | StatusOnly(value: RunStatus)                             // update_status: the row alone
    | WriteProjection(writer: nat)
    | LoseProjection(writer: nat)                              // OSError, or the writer died
    | ReadRow                                                  // a load reads the row
    | ReadProjection(reader: nat)                              // and then run.json
    | LoadUnderLock                                            // both at once, and the rewrite succeeds

  function Without<T>(s: seq<T>, i: nat): seq<T>
    requires i < |s|
  {
    s[..i] + s[i + 1..]
  }

  predicate Enabled(s: Store, e: Event) {
    match e
    case WriteProjection(i) => i < |s.pending|
    case LoseProjection(i) => i < |s.pending|
    case ReadProjection(i) => i < |s.readers|
    case _ => true
  }

  /** What a load with this row finds, run.json being as it is. */
  function Found(s: Store, read: Row): LoadResult {
    LoadOf(Some(read), Readable, true, s.json)
  }

  /** A load that succeeds on a stale projection goes on to rewrite it from the row it read. */
  function Rewrites(s: Store, read: Row): seq<Payload> {
    if Found(s, read).Loaded? && s.json != Some(Project(read)) then [Project(read)] else []
  }

  function After(s: Store, e: Event): Store
    requires Enabled(s, e)
  {
    match e
    case CommitTree(nodes, status) =>
      var row := Row(s.row.revision + 1, nodes, if status.Some? then status.value else s.row.status);
      s.(row := row, pending := s.pending + [Project(row)], trees := s.trees + [nodes],
         statuses := s.statuses + [{row.status}])
    case StatusOnly(status) =>
      s.(row := s.row.(status := status),
         statuses := if s.statuses == [] then [] else WithLast(s.statuses, Last(s.statuses) + {status}))
    case WriteProjection(i) => s.(json := Some(s.pending[i]), pending := Without(s.pending, i))
    case LoseProjection(i) => s.(pending := Without(s.pending, i))
    case ReadRow => s.(readers := s.readers + [s.row])
    case ReadProjection(i) => s.(readers := Without(s.readers, i), pending := s.pending + Rewrites(s, s.readers[i]))
    case LoadUnderLock => if Found(s, s.row).Loaded? then s.(json := Some(Project(s.row))) else s
  }

  /** A projection shows the tree committed at its revision, a status the row has had at it, and the endings of the
      tree's leaves. */
  predicate Shows(s: Store, p: Payload) {
    && p.revision < |s.trees| && p.revision < |s.statuses| && p.nodes == s.trees[p.revision]
    && p.status in s.statuses[p.revision] && p.results == Endings(TreeLeaves(p.nodes))
  }

  /** No projection, written or about to be, is newer than the row, and each shows what was stored at its revision. */
  predicate Inv(s: Store) {
    && |s.trees| == |s.statuses| == s.row.revision + 1 && s.row.nodes == s.trees[s.row.revision]
    && s.row.status in s.statuses[s.row.revision]
    && (s.json.Some? ==> Shows(s, s.json.value))
    && (forall i :: 0 <= i < |s.pending| ==> Shows(s, s.pending[i]))
    && (forall i :: 0 <= i < |s.readers| ==> Shows(s, Project(s.readers[i])))
  }

  lemma EventKeeps(s: Store, e: Event)
    requires Inv(s) && Enabled(s, e)
    ensures Inv(After(s, e))
  {
    hide Outcomes, Endings, TreeLeaves;
    var t := After(s, e);
    OutcomesAre(t.row.nodes);
    forall i | 0 <= i < |t.pending|
      ensures Shows(t, t.pending[i])
    {
      if e.ReadProjection? && i >= |s.pending| { assert Shows(s, Project(s.readers[e.reader])); }
      if e.CommitTree? && i < |s.pending| { assert Shows(s, s.pending[i]); }
    }
    forall i | 0 <= i < |t.readers|
      ensures Shows(t, Project(t.readers[i]))
    {
      if e.CommitTree? { assert Shows(s, Project(s.readers[i])); }
    }
  }

  predicate CanHappen(s: Store, events: seq<Event>)
    decreases |events|
  {
    events != [] ==> Enabled(s, events[0]) && CanHappen(After(s, events[0]), events[1..])
  }

  function AfterAll(s: Store, events: seq<Event>): Store
    requires CanHappen(s, events)
    decreases |events|
  {
    if events == [] then s else AfterAll(After(s, events[0]), events[1..])
  }

  /** Right after initialize, its projection still to be written. */
  function Initial(nodes: seq<Node>, status: RunStatus): Store {
    var row := Row(0, nodes, status);
    Store(row, None, [Project(row)], [], [nodes], [{status}])
  }

  lemma {:induction false} HistoryKeeps(s: Store, events: seq<Event>)
    requires Inv(s) && CanHappen(s, events)
    ensures Inv(AfterAll(s, events)) && s.trees <= AfterAll(s, events).trees
    decreases |events|
  {
    hide Inv;
    if events != [] {
      EventKeeps(s, events[0]);
      HistoryKeeps(After(s, events[0]), events[1..]);
    }
  }

  /** Projection agreement: over any history run.json is never newer than the row, and a load that reads both at once
      never reports an inconsistent projection: it returns the last committed tree and leaves run.json its
      projection. */
  lemma LoadsAgree(nodes: seq<Node>, status: RunStatus, events: seq<Event>)
    requires CanHappen(Initial(nodes, status), events)
    ensures var s := AfterAll(Initial(nodes, status), events);
            && |s.trees| == s.row.revision + 1
            && (s.json.Some? ==>
                  s.json.value.revision <= s.row.revision && Shows(s, s.json.value))
            && s.trees != [] && Found(s, s.row) == Loaded(Last(s.trees), |s.trees| - 1)
            && After(s, LoadUnderLock).json.Some? && ShowsRow(After(s, LoadUnderLock).json.value, s.row)
  {
    hide Outcomes, Endings, TreeLeaves;
    OutcomesAre(nodes);
    HistoryKeeps(Initial(nodes, status), events);
    ProjectShows(AfterAll(Initial(nodes, status), events).row);
  }

  // ---- loads without the lock ----

  /** Where a load that has read the row is among the readers after these events, unless it has read run.json as
      well. */
  function Still(reader: nat, events: seq<Event>): Option<nat> {
    if events == [] then Some(reader)
    else
      match events[0]
      case ReadProjection(i) =>
        if i == reader then None else Still(if i < reader then reader - 1 else reader, events[1..])
      case _ => Still(reader, events[1..])
  }

  /** The last projection these events write to run.json. */
  function LastWritten(s: Store, events: seq<Event>): Option<Payload>
    requires CanHappen(s, events)
    decreases |events|
  {
    if events == [] then None
    else
      var later := LastWritten(After(s, events[0]), events[1..]);
      if later.Some? then later
      else
        match events[0]
        case WriteProjection(i) => Some(s.pending[i])
        case LoadUnderLock => if Found(s, s.row).Loaded? then Some(Project(s.row)) else None
        case _ => None
  }

  lemma {:induction false} JsonIsLastWritten(s: Store, events: seq<Event>)
    requires CanHappen(s, events)
    ensures AfterAll(s, events).json == if LastWritten(s, events).Some? then LastWritten(s, events) else s.json
    decreases |events|
  {
    hide Outcomes;
    if events != [] { JsonIsLastWritten(After(s, events[0]), events[1..]); }
  }

  lemma {:induction false} ReaderKeepsRow(s: Store, reader: nat, events: seq<Event>)
    requires CanHappen(s, events) && reader < |s.readers| && Still(reader, events).Some?
    ensures Still(reader, events).value < |AfterAll(s, events).readers|
    ensures AfterAll(s, events).readers[Still(reader, events).value] == s.readers[reader]
    decreases |events|
  {
    hide Outcomes;
    if events != [] {
      var reader1 := if events[0].ReadProjection? && events[0].reader < reader then reader - 1 else reader;
      ReaderKeepsRow(After(s, events[0]), reader1, events[1..]);
    }
  }

  /** A load that does not hold the lock reads the row and, some events later, run.json. It reports an inconsistent
      projection exactly when the last projection written in between is newer than the row it read, and then a commit
      came in between as well; otherwise it returns the tree that was the last one when it read the row, and goes on to
      rewrite a projection that does not show that row. */
  lemma UnlockedLoad(s: Store, events: seq<Event>)
    requires Inv(s) && CanHappen(After(s, ReadRow), events) && Still(|s.readers|, events).Some?
    ensures var end := AfterAll(After(s, ReadRow), events); var reader := Still(|s.readers|, events).value;
            var written := LastWritten(After(s, ReadRow), events);
            && reader < |end.readers| && end.readers[reader] == s.row
            && (Found(end, s.row).InconsistentProjection? <==> written.Some? && written.value.revision > s.row.revision)
            && (Found(end, s.row).InconsistentProjection? ==> s.row.revision < end.row.revision)
            && (!Found(end, s.row).InconsistentProjection? ==>
                  s.trees != [] && Found(end, s.row) == Loaded(Last(s.trees), s.row.revision))
            && (!Found(end, s.row).InconsistentProjection? && end.json != Some(Project(s.row)) ==>
                  var t := After(end, ReadProjection(reader)); t.pending != [] && ShowsRow(Last(t.pending), s.row))
  {
    hide Outcomes, Endings, TreeLeaves, CanHappen, AfterAll, LastWritten, Still, ShowsRow;
    var s1 := After(s, ReadRow);
    ProjectShows(s.row);
    EventKeeps(s, ReadRow);
    HistoryKeeps(s1, events);
    JsonIsLastWritten(s1, events);
    ReaderKeepsRow(s1, |s.readers|, events);
  }

  /** And it can: one commit with its projection between the two reads is enough. */
  lemma UnlockedLoadCanFail(nodes: seq<Node>, next: seq<Node>, status: RunStatus)
    ensures var events := [WriteProjection(0), ReadRow, CommitTree(next, None), WriteProjection(0)];
            && CanHappen(Initial(nodes, status), events)
            && (var s := AfterAll(Initial(nodes, status), events);
                |s.readers| == 1 && Found(s, s.readers[0]).InconsistentProjection?)
  {
    hide Outcomes;
    var s0 := Initial(nodes, status);
    var s1 := After(s0, WriteProjection(0));
    var s2 := After(s1, ReadRow);
    var s3 := After(s2, CommitTree(next, None));
    var s4 := After(s3, WriteProjection(0));
    assert CanHappen(s4, []) && AfterAll(s4, []) == s4;
    assert CanHappen(s3, [WriteProjection(0)]) && AfterAll(s3, [WriteProjection(0)]) == s4;
    var e2 := [CommitTree(next, None), WriteProjection(0)];
    assert e2[1..] == [WriteProjection(0)];
    assert CanHappen(s2, e2) && AfterAll(s2, e2) == s4;
    var e1 := [ReadRow] + e2;
    assert e1[1..] == e2;
    assert CanHappen(s1, e1) && AfterAll(s1, e1) == s4;
    var events := [WriteProjection(0), ReadRow, CommitTree(next, None), WriteProjection(0)];
    assert events[1..] == e1;
  }
}
