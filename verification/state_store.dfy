/** RunStateStore: the run row owns the tree and run.json is its projection (state_store.py). Parsing and printing
    are left out; every stored document that can be read is the tree it stands for. */
module StateStore {
  import opened StateModels
  import opened Projection
  import opened Rows

  /** run.json. */
  datatype Payload = Payload(revision: nat, nodes: seq<Node>, status: RunStatus, results: seq<Outcome>)

  /** build_run_json_payload. */
  function Project(row: Row): Payload {
    Payload(row.revision, row.nodes, row.status, Outcomes(row.nodes))
  }

  /** What run.json shows of a row: its revision, its tree, its status and the endings of its leaves. */
  predicate ShowsRow(p: Payload, row: Row) {
    && p.revision == row.revision && p.nodes == row.nodes && p.status == row.status
    && p.results == Endings(TreeLeaves(row.nodes))
  }

  lemma ProjectShows(row: Row)
    ensures ShowsRow(Project(row), row)
  {
    OutcomesAre(row.nodes);
  }

  /** The row's state document: absent before initialize, unreadable when it does not parse or carries another revision
      than its row, and otherwise the row's tree. */
  datatype Document = Absent | Unreadable | Readable

  datatype LoadResult =
    | Loaded(nodes: seq<Node>, revision: nat)
    | NotFound
    | MissingState
    | UnreadableState
    | MissingSnapshotFiles
    | InconsistentProjection

  /** What load returns for the row it read, the snapshot files it found or not, and the projection it then read. */
  function LoadOf(stored: Option<Row>, document: Document, snapshots: bool, json: Option<Payload>): LoadResult {
    if stored.None? then NotFound
    else if document.Absent? then MissingState
    else if document.Unreadable? then UnreadableState
    else if !snapshots then MissingSnapshotFiles
    else if json.Some? && json.value.revision > stored.value.revision then InconsistentProjection
    else Loaded(stored.value.nodes, stored.value.revision)
  }

  /** The stored run can be loaded: its document reads, its snapshot files are there, and run.json is not newer. */
  predicate Loadable(stored: Option<Row>, document: Document, snapshots: bool, json: Option<Payload>) {
    && stored.Some? && document.Readable? && snapshots
    && (json.Some? ==> json.value.revision <= stored.value.revision)
  }

  /** The projection after trying to write p: an OSError leaves the file as it was. */
  function AfterSync(json: Option<Payload>, p: Payload, disk: seq<bool>): Option<Payload> {
    if disk != [] && !disk[0] then json else Some(p)
  }

  /** The document after other writers' turn: what they write can be read. */
  function AfterOthers(document: Document, intrusions: seq<Intrusion>): Document {
    if intrusions != [] && intrusions[0].Overwrite? then Readable else document
  }

  class RunStateStore {
    /** Whether the snapshot files of the manifest are there. */
    const snapshots: bool
    var row: Option<Row>
    var document: Document
    var json: Option<Payload>
    /** What other writers do while the lock is waited for, and whether each write of run.json succeeds. */
    var intrusions: seq<Intrusion>
    var disk: seq<bool>

    /** A load by someone holding the lock succeeds, while there is a row. */
    predicate Consistent()
      reads this
    {
      row.Some? ==> document.Readable? && (json.Some? ==> json.value.revision <= row.value.revision)
    }

    /** A row just inserted by Engine._insert_running. */
    constructor (snapshots: bool, intrusions: seq<Intrusion>, disk: seq<bool>)
      ensures row == Some(Row(0, [], RunRunning)) && document == Absent && json == None
      ensures this.snapshots == snapshots && this.intrusions == intrusions && this.disk == disk
    {
      this.snapshots := snapshots;
      row := Some(Row(0, [], RunRunning));
      document := Absent;
      json := None;
      this.intrusions := intrusions;
      this.disk := disk;
    }

    /** Waiting for the workspace lock: whatever others do to the row, they do now. */
    method TakeLock()
      modifies `row, `document, `intrusions
      ensures row == Disturb(old(row), old(intrusions)) && intrusions == Rest(old(intrusions))
      ensures document == AfterOthers(old(document), old(intrusions))
      ensures old(Consistent()) ==> Consistent()
    {
      document := AfterOthers(document, intrusions);
      row := Disturb(row, intrusions);
      intrusions := Rest(intrusions);
    }

    method SyncProjection()
      requires row.Some?
      modifies `json, `disk
      ensures json == AfterSync(old(json), Project(row.value), old(disk)) && disk == Rest(old(disk))
      ensures old(disk) == [] || old(disk)[0] ==> json.Some? && ShowsRow(json.value, row.value)
      ensures old(disk) != [] && !old(disk)[0] ==> json == old(json)
    {
      ProjectShows(row.value);
      if disk == [] || disk[0] {
        json := Some(Project(row.value));
      }
      disk := Rest(disk);
    }

    /** Commit the revision 0 tree; the compare-and-swap is from revision 0 to revision 0. */
    method Initialize(nodes: seq<Node>) returns (ok: bool)
      modifies this
      ensures ok == Accepts(Disturb(old(row), old(intrusions)), 0)
      ensures ok ==> row == Some(Row(0, nodes, Disturb(old(row), old(intrusions)).value.status)) && document == Readable
      ensures ok ==> json == AfterSync(old(json), Project(row.value), old(disk))
      ensures ok && (old(disk) == [] || old(disk)[0]) ==> json.Some? && ShowsRow(json.value, row.value)
      ensures !ok ==> row == Disturb(old(row), old(intrusions)) && json == old(json)
      ensures intrusions == Rest(old(intrusions))
    {
      TakeLock();
      if !Accepts(row, 0) {
        return false;
      }
      row := Some(row.value.(revision := 0, nodes := nodes));
      document := Readable;
      SyncProjection();
      ok := true;
    }

    /** save, once the lock is held: commit nodes at revision + 1 exactly when the row still holds `revision`, then sync
        run.json. */
    method SaveLocked(nodes: seq<Node>, revision: nat, status: Option<RunStatus>) returns (ok: bool)
      modifies `row, `document, `json, `disk
      ensures ok == Accepts(old(row), revision)
      ensures ok ==> row == Written(old(row), revision, nodes, status) && document == Readable
      ensures ok ==> json == AfterSync(old(json), Project(row.value), old(disk))
      ensures ok && (old(disk) == [] || old(disk)[0]) ==> json.Some? && ShowsRow(json.value, row.value)
      ensures !ok ==> row == old(row) && json == old(json) && document == old(document)
      ensures old(Consistent()) ==> Consistent()
    {
      if !Accepts(row, revision) {
        return false;
      }
      row := Some(Row(revision + 1, nodes, if status.Some? then status.value else row.value.status));
      document := Readable;
      SyncProjection();
      ok := true;
    }

    /** save by a coordinator: others have their turn, then it compares and swaps. */
    method Save(nodes: seq<Node>, revision: nat, status: Option<RunStatus>) returns (ok: bool)
      modifies this
      ensures ok == Accepts(Disturb(old(row), old(intrusions)), revision)
      ensures ok ==> row == Written(Disturb(old(row), old(intrusions)), revision, nodes, status)
      ensures ok ==> json == AfterSync(old(json), Project(row.value), old(disk))
      ensures ok && (old(disk) == [] || old(disk)[0]) ==> json.Some? && ShowsRow(json.value, row.value)
      ensures !ok ==> row == Disturb(old(row), old(intrusions)) && json == old(json)
      ensures intrusions == Rest(old(intrusions))
      ensures old(Consistent()) ==> Consistent()
    {
      TakeLock();
      ok := SaveLocked(nodes, revision, status);
    }

    /** Update only the row's status (RunsRepository.update_status). */
    method UpdateStatus(status: RunStatus)
      modifies `row
      ensures row == if old(row).None? then None else Some(old(row).value.(status := status))
    {
      if row.Some? {
        row := Some(row.value.(status := status));
      }
    }

    /** Read the row, check its document, the snapshot files and run.json against it, and rewrite run.json when it is
        absent or stale. */
    method Load() returns (r: LoadResult)
      modifies `json, `disk
      ensures r == LoadOf(row, document, snapshots, old(json))
      ensures r.NotFound? <==> row.None?
      ensures r.MissingState? <==> row.Some? && document.Absent?
      ensures r.UnreadableState? <==> row.Some? && document.Unreadable?
      ensures r.MissingSnapshotFiles? <==> row.Some? && document.Readable? && !snapshots
      ensures r.InconsistentProjection? <==>
                && row.Some? && document.Readable? && snapshots
                && old(json).Some? && old(json).value.revision > row.value.revision
      ensures r.Loaded? ==> r.nodes == row.value.nodes && r.revision == row.value.revision
      ensures r.Loaded? && old(json) != Some(Project(row.value)) ==>
                json == AfterSync(old(json), Project(row.value), old(disk))
      ensures r.Loaded? && old(json) == Some(Project(row.value)) ==> json == old(json)
      ensures r.Loaded? && (old(disk) == [] || old(disk)[0]) ==> json.Some? && ShowsRow(json.value, row.value)
      ensures !r.Loaded? ==> json == old(json)
      ensures old(Consistent()) ==> Consistent()
    {
      if row.None? { return NotFound; }
      ProjectShows(row.value);
      if document.Absent? { return MissingState; }
      if document.Unreadable? { return UnreadableState; }
      if !snapshots { return MissingSnapshotFiles; }
      if json.Some? && json.value.revision > row.value.revision { return InconsistentProjection; }
      if json != Some(Project(row.value)) {
        SyncProjection();
      }
      r := Loaded(row.value.nodes, row.value.revision);
    }
  }
}
