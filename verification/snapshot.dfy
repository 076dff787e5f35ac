/** The snapshot of a run's definitions (engine/writer.py) against resolving the same steps through the catalog
    (catalog/services/resolve_step.py). Documents are parsed and valid; a catalog maps references to them. */
module Snapshot {
  import opened StateModels

  datatype Kind = CommandKind | ScriptKind | AgentKind | InternalKind

  /** The fields a uses: step may override one by one. */
  datatype Field = NameField | Description | Prompt | ScriptPath | Tools | Timeout | Assert | FailureSpec

  /** A step document: own holds the fields it sets explicitly. */
  datatype Doc = Doc(id: string, run: Option<string>, uses: Option<string>, kind: Option<Kind>, command: string,
                     own: map<Field, string>, env: map<string, string>, artifacts: seq<string>)

  /** A field's value, its default being the empty one. */
  function FieldValue(d: Doc, f: Field): string {
    if f in d.own then d.own[f] else ""
  }

  /** The shape a step of inline type must have. */
  predicate Shaped(d: Doc) {
    d.kind.Some? &&
    match d.kind.value
    case CommandKind => d.command != ""
    case InternalKind => d.command != ""
    case AgentKind => FieldValue(d, Prompt) != ""
    case ScriptKind => FieldValue(d, ScriptPath) != ""
  }

  const PICKED: set<Field> := {NameField, Description, Prompt, ScriptPath, Tools, Timeout, Assert, FailureSpec}
  const KEPT_BY_RUN: set<Field> := {NameField, Description, Timeout, Assert, FailureSpec}

  /** merge_uses_step: the base's type and command, the using step's own fields over the base's, both environments. */
  function Merge(using: Doc, base: Doc): Option<Doc> {
    var merged := Doc(using.id, None, None, base.kind, base.command,
                      map f | f in PICKED :: if f in using.own then using.own[f] else FieldValue(base, f),
                      base.env + using.env, []);
    if Shaped(merged) then Some(merged) else None
  }

  /** _resolve_run, for a document with run. */
  function ExpandRun(d: Doc): Option<Doc>
    requires d.run.Some?
  {
    var r := Doc(d.id, None, None, Some(CommandKind), d.run.value,
                 map f | f in KEPT_BY_RUN :: FieldValue(d, f), d.env, []);
    if Shaped(r) then Some(r) else None
  }

  /** Why a resolver raises; a cycle never returns, until Python's own limit. */
  datatype Reason = MissingRef | Cycle | BadMerge | BadRun

  /** What a resolver returns: a definition, None, or an exception. */
  datatype Resolution = Resolved(doc: Doc) | Unresolved | Raised(reason: Reason)

  function Merged(using: Doc, base: Doc): Resolution {
    var m := Merge(using, base);
    if m.Some? then Resolved(m.value) else Unresolved
  }

  /** _resolve_or_none through the catalog; seen are the references being resolved, whose repetition never returns. */
  function FromCatalog(catalog: map<string, Doc>, d: Doc, seen: set<string>): Resolution
    decreases catalog.Keys - seen
  {
    if d.run.Some? then
      var r := ExpandRun(d);
      if r.Some? then Resolved(r.value) else Raised(BadRun)
    else if d.uses.Some? then
      var ref := d.uses.value;
      if ref !in catalog then Unresolved
      else if ref in seen then Raised(Cycle)
      else
        match FromCatalog(catalog, catalog[ref], seen + {ref})
        case Raised(reason) => Raised(reason)
        case Unresolved => Merged(d, catalog[ref])
        case Resolved(base) => Merged(d, base)
    else if d.kind.Some? then Resolved(d)
    else Unresolved
  }

  /** _resolve_step_from_snapshot, which raises where the catalog has no answer. */
  function FromSnapshot(files: map<string, Doc>, d: Doc, seen: set<string>): Resolution
    decreases files.Keys - seen
  {
    if d.uses.None? then Resolved(d)
    else
      var ref := d.uses.value;
      if ref !in files then Raised(MissingRef)
      else if ref in seen then Raised(Cycle)
      else
        match FromSnapshot(files, files[ref], seen + {ref})
        case Resolved(base) => if Merge(d, base).Some? then Resolved(Merge(d, base).value) else Raised(BadMerge)
        case other => other
  }

  // ---- the closure ----

  datatype Item = StepOf(doc: Doc) | LoopOf(body: seq<Doc>)

  function ItemDocs(item: Item): seq<Doc> {
    match item
    case StepOf(d) => [d]
    case LoopOf(body) => body
  }

  function Candidates(items: seq<Item>): seq<Doc> {
    if items == [] then [] else Candidates(items[..|items| - 1]) + ItemDocs(Last(items))
  }

  lemma CandidatesNext(items: seq<Item>, i: nat)
    requires i < |items|
    ensures Candidates(items[..i + 1]) == Candidates(items[..i]) + ItemDocs(items[i])
  {
    assert items[..i + 1][..i] == items[..i];
  }

  /** The steps of the items and of their bodies, and nothing else. */
  lemma {:induction false} CandidatesAre(items: seq<Item>, d: Doc)
    ensures d in Candidates(items) <==> exists i :: 0 <= i < |items| && HasStep(items[i], d)
  {
    if items != [] {
      var rest := items[..|items| - 1];
      CandidatesAre(rest, d);
      assert forall i :: 0 <= i < |rest| ==> rest[i] == items[i];
      if d in ItemDocs(Last(items)) { assert HasStep(items[|items| - 1], d); }
    }
  }

  predicate HasStep(item: Item, d: Doc) {
    item == StepOf(d) || (item.LoopOf? && d in item.body)
  }

  /** The distinct references of these documents, each where it first occurs. */
  function FirstUses(docs: seq<Doc>): seq<string> {
    if docs == [] then []
    else
      var earlier := FirstUses(docs[..|docs| - 1]);
      var u := Last(docs).uses;
      if u.Some? && u.value !in earlier then earlier + [u.value] else earlier
  }

  /** Exactly the references of the documents, once each, and in the order in which they are first used. */
  ghost predicate FirstUsesOf(refs: seq<string>, docs: seq<Doc>) {
    && (forall ref :: ref in refs <==> exists i :: 0 <= i < |docs| && docs[i].uses == Some(ref))
    && (forall a, b :: 0 <= a < b < |refs| ==> refs[a] != refs[b])
    && (forall a, b, i :: 0 <= a < b < |refs| && 0 <= i < |docs| && docs[i].uses == Some(refs[b]) ==>
          UsedBefore(docs, i, refs[a]))
  }

  predicate UsedBefore(docs: seq<Doc>, i: nat, ref: string)
    requires i < |docs|
  {
    exists j :: 0 <= j < i && docs[j].uses == Some(ref)
  }

  lemma {:induction false} FirstUsesAre(docs: seq<Doc>)
    ensures FirstUsesOf(FirstUses(docs), docs)
  {
    if docs != [] {
      var n := |docs| - 1;
      var rest := docs[..n];
      FirstUsesAre(rest);
      var earlier, refs := FirstUses(rest), FirstUses(docs);
      assert forall i :: 0 <= i < n ==> rest[i] == docs[i];
      forall ref
        ensures ref in refs <==> exists i :: 0 <= i < |docs| && docs[i].uses == Some(ref)
      {
        if ref in earlier {
          var i :| 0 <= i < n && rest[i].uses == Some(ref);
          assert docs[i].uses == Some(ref);
        } else if docs[n].uses == Some(ref) {
          assert ref == refs[|refs| - 1];
        }
      }
      forall a, b, i | 0 <= a < b < |refs| && 0 <= i < |docs| && docs[i].uses == Some(refs[b])
        ensures UsedBefore(docs, i, refs[a])
      {
        assert refs[a] == earlier[a] && refs[a] in earlier;
        if i < n {
          assert rest[i].uses == Some(refs[b]) && refs[b] in earlier;
          assert b < |earlier|;
          assert UsedBefore(rest, i, earlier[a]);
        } else {
          var j :| 0 <= j < n && rest[j].uses == Some(refs[a]);
        }
      }
    }
  }

  /** _collect_uses_refs. */
  method CollectUsesRefs(items: seq<Item>) returns (refs: seq<string>)
    ensures refs == FirstUses(Candidates(items)) && FirstUsesOf(refs, Candidates(items))
    ensures forall d :: d in Candidates(items) <==> exists i :: 0 <= i < |items| && HasStep(items[i], d)
  {
    FirstUsesAre(Candidates(items));
    forall d
      ensures d in Candidates(items) <==> exists i :: 0 <= i < |items| && HasStep(items[i], d)
    {
      CandidatesAre(items, d);
    }
    hide FirstUses, FirstUsesOf, HasStep, ItemDocs;
    refs := [];
    for i := 0 to |items|
      invariant refs == FirstUses(Candidates(items[..i]))
    {
      CandidatesNext(items, i);
      refs := AddUses(Candidates(items[..i]), ItemDocs(items[i]), refs);
    }
    assert items[..|items|] == items;
  }

  /** The inner loop, over one block's candidates after those already done. */
  method AddUses(ghost done: seq<Doc>, body: seq<Doc>, before: seq<string>) returns (refs: seq<string>)
    requires before == FirstUses(done)
    ensures refs == FirstUses(done + body)
  {
    refs := before;
    assert done + body[..0] == done;
    for j := 0 to |body|
      invariant refs == FirstUses(done + body[..j])
    {
      assert (done + body[..j + 1])[..|done| + j] == done + body[..j];
      assert Last(done + body[..j + 1]) == body[j];
      if body[j].uses.Some? && body[j].uses.value !in refs {
        refs := refs + [body[j].uses.value];
      }
    }
    assert done + body[..|body|] == done + body;
  }

  /** The reference a stored document goes on to; an empty one counts as none. */
  function NestedUses(d: Doc): Option<string> {
    if d.uses == Some("") then None else d.uses
  }

  /** A chain of references from a root, each stored document naming the next. */
  predicate Chain(catalog: map<string, Doc>, roots: seq<string>, path: seq<string>) {
    && path != [] && path[0] in roots
    && forall i :: 0 <= i < |path| - 1 ==> path[i] in catalog && NestedUses(catalog[path[i]]) == Some(path[i + 1])
  }

  ghost predicate Reachable(catalog: map<string, Doc>, roots: seq<string>, ref: string) {
    exists path :: Chain(catalog, roots, path) && Last(path) == ref
  }

  lemma ReachableRoot(catalog: map<string, Doc>, roots: seq<string>, ref: string)
    requires ref in roots
    ensures Reachable(catalog, roots, ref)
  {
    assert Chain(catalog, roots, [ref]) && Last([ref]) == ref;
  }

  lemma ReachableNext(catalog: map<string, Doc>, roots: seq<string>, ref: string, next: string)
    requires Reachable(catalog, roots, ref) && ref in catalog && NestedUses(catalog[ref]) == Some(next)
    ensures Reachable(catalog, roots, next)
  {
    var path :| Chain(catalog, roots, path) && Last(path) == ref;
    assert Chain(catalog, roots, path + [next]) && Last(path + [next]) == next;
  }

  /** A set with the roots, closed under going on, has everything reachable. */
  lemma {:induction false} ClosedHasAll(catalog: map<string, Doc>, roots: seq<string>, path: seq<string>,
                                        kept: set<string>)
    requires Chain(catalog, roots, path) && forall r :: r in roots ==> r in kept
    requires forall r :: r in kept && r in catalog && NestedUses(catalog[r]).Some? ==>
               NestedUses(catalog[r]).value in kept
    ensures Last(path) in kept
    decreases |path|
  {
    if |path| > 1 {
      var shorter := path[..|path| - 1];
      assert Chain(catalog, roots, shorter);
      ClosedHasAll(catalog, roots, shorter, kept);
      assert NestedUses(catalog[path[|path| - 2]]) == Some(path[|path| - 1]);
    }
  }

  lemma ClosedHasReachable(catalog: map<string, Doc>, roots: seq<string>, ref: string, kept: set<string>)
    requires Reachable(catalog, roots, ref) && forall r :: r in roots ==> r in kept
    requires forall r :: r in kept && r in catalog && NestedUses(catalog[r]).Some? ==>
               NestedUses(catalog[r]).value in kept
    ensures ref in kept
  {
    var path :| Chain(catalog, roots, path) && Last(path) == ref;
    ClosedHasAll(catalog, roots, path, kept);
  }

  /** _resolve_uses_chain: terminates on cyclic references too, collects exactly the reachable ones, and gives None
      exactly when one of them is not in the catalog. */
  method ResolveUsesChain(catalog: map<string, Doc>, items: seq<Item>) returns (r: Option<map<string, Doc>>)
    ensures var roots := FirstUses(Candidates(items));
            && (r.None? <==> exists ref :: Reachable(catalog, roots, ref) && ref !in catalog)
            && (r.Some? ==> forall ref :: ref in r.value <==> Reachable(catalog, roots, ref))
            && (r.Some? ==> forall ref :: ref in r.value ==> ref in catalog && r.value[ref] == catalog[ref])
  {
    hide Chain, Reachable, NestedUses, FirstUses, Candidates;
    var visited: map<string, Doc> := map[];
    var queue := CollectUsesRefs(items);
    ghost var roots := queue;
    var queued := set q | q in queue;
    forall q | q in queue
      ensures Reachable(catalog, roots, q)
    {
      ReachableRoot(catalog, roots, q);
    }
    ghost var left := catalog.Keys;
    while queue != []
      invariant left == catalog.Keys - visited.Keys
      invariant forall q :: q in queue ==> Reachable(catalog, roots, q)
      invariant forall v :: v in visited ==> Reachable(catalog, roots, v) && v in catalog && visited[v] == catalog[v]
      invariant forall q :: q in queued <==> q in queue || q in visited
      invariant forall q :: q in roots ==> q in queued
      invariant forall v :: v in visited && NestedUses(catalog[v]).Some? ==> NestedUses(catalog[v]).value in queued
      decreases left, |queue|
    {
      var ref := queue[0];
      assert ref in queue;
      queue := queue[1..];
      if ref in visited {
        continue;
      }
      if ref !in catalog {
        return None;
      }
      visited := visited[ref := catalog[ref]];
      assert ref in left;
      left := left - {ref};
      var nested := NestedUses(catalog[ref]);
      if nested.Some? {
        ReachableNext(catalog, roots, ref, nested.value);
        if nested.value !in visited && nested.value !in queued {
          queue := queue + [nested.value];
          queued := queued + {nested.value};
        }
      }
    }
    forall ref | Reachable(catalog, roots, ref)
      ensures ref in visited
    {
      ClosedHasReachable(catalog, roots, ref, queued);
    }
    r := Some(visited);
  }

  // ---- the two resolvers ----

  /** load_blueprint_from_snapshot: the files the run keeps, run documents already expanded; None when one of them does
      not expand. */
  predicate Loads(catalog: map<string, Doc>, refs: set<string>) {
    forall r :: r in refs && r in catalog && catalog[r].run.Some? ==> ExpandRun(catalog[r]).Some?
  }

  function Stored(d: Doc): Doc {
    if d.run.Some? && ExpandRun(d).Some? then ExpandRun(d).value else d
  }

  function Files(catalog: map<string, Doc>, refs: set<string>): map<string, Doc> {
    map r | r in refs && r in catalog :: Stored(catalog[r])
  }

  /** The definition that finally runs: a run step is expanded when it executes. */
  function Executable(d: Doc): Resolution {
    if d.run.Some? then (if ExpandRun(d).Some? then Resolved(ExpandRun(d).value) else Raised(BadRun)) else Resolved(d)
  }

  /** validate_step_shape: run stands alone, and a document with neither run nor uses has an inline type. An empty uses
      is a uses like any other. */
  predicate ValidDoc(d: Doc) {
    (d.run.Some? ==> d.uses.None?) && (d.run.None? && d.uses.None? ==> d.kind.Some?)
  }

  /** Nothing is found under the empty reference. */
  predicate ValidCatalog(catalog: map<string, Doc>) {
    "" !in catalog && forall r :: r in catalog ==> ValidDoc(catalog[r])
  }

  /** The documents that this one goes on to are kept. */
  predicate LeadsInto(d: Doc, refs: set<string>) {
    NestedUses(d).Some? ==> NestedUses(d).value in refs
  }

  /** What a document refers to is kept, and so on along its chain. */
  predicate Kept(catalog: map<string, Doc>, refs: set<string>) {
    forall r :: r in refs ==> r in catalog && LeadsInto(catalog[r], refs)
  }

  /** What the closure collected resolves the same from the snapshot as from the catalog whenever the snapshot resolves
      it at all. */
  lemma {:induction false} SnapshotAgrees(catalog: map<string, Doc>, refs: set<string>, d: Doc, seen: set<string>)
    requires ValidCatalog(catalog) && Kept(catalog, refs) && Loads(catalog, refs) && seen <= refs
    requires ValidDoc(d) && LeadsInto(d, refs)
    ensures var s := FromSnapshot(Files(catalog, refs), Stored(d), seen);
            && (s.Resolved? && (d.run.Some? ==> ExpandRun(d).Some?) ==> FromCatalog(catalog, d, seen) == s)
            && !s.Unresolved?
    decreases refs - seen
  {
    var files := Files(catalog, refs);
    assert files.Keys == refs;
    if NestedUses(d).Some? && d.uses.value !in seen {
      var ref := d.uses.value;
      assert files[ref] == Stored(catalog[ref]);
      SnapshotAgrees(catalog, refs, catalog[ref], seen + {ref});
    }
  }

  /** A step, the stored one it uses, and so on. */
  function ChainOf(files: map<string, Doc>, d: Doc, seen: set<string>): (r: seq<Doc>)
    ensures r != [] && r[0] == d
    decreases files.Keys - seen
  {
    if d.uses.Some? && d.uses.value in files && d.uses.value !in seen then
      [d] + ChainOf(files, files[d.uses.value], seen + {d.uses.value})
    else [d]
  }

  /** The references followed to get to document i + 1 of the chain. */
  function SeenAt(chain: seq<Doc>, seen: set<string>, i: nat): set<string>
    requires i < |chain|
  {
    seen + (set j | 0 <= j <= i && chain[j].uses.Some? :: chain[j].uses.value)
  }

  /** The documents of a chain merged onto a base, the first one last. */
  function MergeUp(chain: seq<Doc>, base: Doc): Option<Doc> {
    if chain == [] then Some(base)
    else
      var below := MergeUp(chain[1..], base);
      if below.Some? then Merge(chain[0], below.value) else None
  }

  /** Document i + 1 of the chain does not resolve, and those before it merge onto it as it stands. */
  predicate FallsBackAt(catalog: map<string, Doc>, d: Doc, seen: set<string>, i: nat) {
    var chain := ChainOf(catalog, d, seen);
    && i + 1 < |chain| && FromCatalog(catalog, chain[i + 1], SeenAt(chain, seen, i)).Unresolved?
    && MergeUp(chain[..i + 1], chain[i + 1]).Some?
  }

  /** The document fallen back on mixes uses with an inline type. */
  lemma FallenOnIsMixed(catalog: map<string, Doc>, d: Doc, seen: set<string>, i: nat)
    requires ValidCatalog(catalog) && FallsBackAt(catalog, d, seen, i) && ValidDoc(d)
    ensures var m := ChainOf(catalog, d, seen)[i + 1]; m.uses.Some? && m.kind.Some? && m.run.None?
  {
    ChainValid(catalog, d, seen, i + 1);
    MergeUpKind(ChainOf(catalog, d, seen)[..i + 1], ChainOf(catalog, d, seen)[i + 1]);
  }

  lemma {:induction false} ChainValid(catalog: map<string, Doc>, d: Doc, seen: set<string>, i: nat)
    requires ValidCatalog(catalog) && ValidDoc(d) && i < |ChainOf(catalog, d, seen)|
    ensures ValidDoc(ChainOf(catalog, d, seen)[i])
    decreases i
  {
    if i > 0 { ChainValid(catalog, catalog[d.uses.value], seen + {d.uses.value}, i - 1); }
  }

  lemma {:induction false} MergeUpKind(chain: seq<Doc>, base: Doc)
    requires chain != [] && MergeUp(chain, base).Some?
    ensures base.kind.Some? && MergeUp(chain, base).value.kind == base.kind
  {
    if |chain| > 1 { MergeUpKind(chain[1..], base); }
  }

  lemma ChainRest(catalog: map<string, Doc>, d: Doc, seen: set<string>, i: nat)
    requires d.uses.Some? && d.uses.value in catalog && d.uses.value !in seen && i + 1 < |ChainOf(catalog, d, seen)|
    ensures var rest := ChainOf(catalog, catalog[d.uses.value], seen + {d.uses.value});
            var chain := ChainOf(catalog, d, seen);
            && chain[1..] == rest && chain[i + 1] == rest[i] && chain[..i + 1] == [d] + rest[..i]
            && (i > 0 ==> SeenAt(chain, seen, i) == SeenAt(rest, seen + {d.uses.value}, i - 1))
            && SeenAt(chain, seen, 0) == seen + {d.uses.value}
  {
    var chain := ChainOf(catalog, d, seen);
    var rest := ChainOf(catalog, catalog[d.uses.value], seen + {d.uses.value});
    assert chain == [d] + rest;
    if i > 0 {
      forall r | r in SeenAt(chain, seen, i)
        ensures r in SeenAt(rest, seen + {d.uses.value}, i - 1)
      {
        if r !in seen {
          var j :| 0 <= j <= i && chain[j].uses == Some(r);
          if j > 0 { assert rest[j - 1] == chain[j]; }
        }
      }
      forall r | r in SeenAt(rest, seen + {d.uses.value}, i - 1)
        ensures r in SeenAt(chain, seen, i)
      {
        if r !in seen + {d.uses.value} {
          var j :| 0 <= j <= i - 1 && rest[j].uses == Some(r);
          assert chain[j + 1] == rest[j];
        } else if r !in seen {
          assert chain[0].uses == Some(r);
        }
      }
    }
  }

  /** Falling back is what lets the catalog answer where the snapshot raises. */
  lemma {:induction false} FallingBackAnswers(catalog: map<string, Doc>, refs: set<string>, d: Doc, seen: set<string>,
                                              i: nat)
    requires ValidCatalog(catalog) && Kept(catalog, refs) && Loads(catalog, refs) && seen <= refs
    requires ValidDoc(d) && LeadsInto(d, refs) && FallsBackAt(catalog, d, seen, i)
    ensures var chain := ChainOf(catalog, d, seen);
            FromCatalog(catalog, d, seen) == Resolved(MergeUp(chain[..i + 1], chain[i + 1]).value)
    ensures !FromSnapshot(Files(catalog, refs), Stored(d), seen).Resolved?
    decreases i
  {
    hide Merge, Shaped, ExpandRun, FallsBackAt, MergeUp, SeenAt;
    FallsBackRest(catalog, d, seen, i);
    var ref := d.uses.value;
    var base := catalog[ref];
    assert Files(catalog, refs)[ref] == Stored(base) && Files(catalog, refs).Keys == refs;
    SnapshotAgrees(catalog, refs, base, seen + {ref});
    if i > 0 { FallingBackAnswers(catalog, refs, base, seen + {ref}, i - 1); }
  }

  /** What falling back means for the rest of the chain, and for what this document is merged onto. */
  lemma FallsBackRest(catalog: map<string, Doc>, d: Doc, seen: set<string>, i: nat)
    requires FallsBackAt(catalog, d, seen, i)
    ensures d.uses.Some? && d.uses.value in catalog && d.uses.value !in seen && i + 1 < |ChainOf(catalog, d, seen)|
    ensures var ref := d.uses.value; var base := catalog[ref]; var chain := ChainOf(catalog, d, seen);
            var rest := ChainOf(catalog, base, seen + {ref});
            && (if i > 0 then FallsBackAt(catalog, base, seen + {ref}, i - 1)
                else FromCatalog(catalog, base, seen + {ref}).Unresolved?)
            && i < |rest| && chain[i + 1] == rest[i] && (i == 0 ==> rest[i] == base)
            && MergeUp(rest[..i], rest[i]).Some? && (i == 0 ==> MergeUp(rest[..i], rest[i]).value == base)
            && MergeUp(chain[..i + 1], chain[i + 1]) == Merge(d, MergeUp(rest[..i], rest[i]).value)
            && Merge(d, MergeUp(rest[..i], rest[i]).value).Some?
  {
    hide Merge, FromCatalog;
    var rest := ChainOf(catalog, catalog[d.uses.value], seen + {d.uses.value});
    ChainRest(catalog, d, seen, i);
    MergeUpFirst(d, rest[..i], rest[i]);
    if i == 0 { assert rest[..0] == []; }
  }

  lemma MergeUpFirst(d: Doc, chain: seq<Doc>, base: Doc)
    ensures MergeUp([d] + chain, base)
         == if MergeUp(chain, base).Some? then Merge(d, MergeUp(chain, base).value) else None
  {
    assert ([d] + chain)[1..] == chain;
  }

  /** And it is the only way. */
  lemma {:induction false} OnlyFallingBack(catalog: map<string, Doc>, refs: set<string>, d: Doc, seen: set<string>)
    returns (i: nat)
    requires ValidCatalog(catalog) && Kept(catalog, refs) && Loads(catalog, refs) && seen <= refs
    requires ValidDoc(d) && LeadsInto(d, refs)
    requires FromCatalog(catalog, d, seen).Resolved? && !FromSnapshot(Files(catalog, refs), Stored(d), seen).Resolved?
    ensures FallsBackAt(catalog, d, seen, i)
    decreases refs - seen
  {
    hide Merge, Shaped;
    var ref := d.uses.value;
    var base := catalog[ref];
    var rest := ChainOf(catalog, base, seen + {ref});
    assert Files(catalog, refs)[ref] == Stored(base) && Files(catalog, refs).Keys == refs;
    SnapshotAgrees(catalog, refs, base, seen + {ref});
    if FromCatalog(catalog, base, seen + {ref}).Unresolved? {
      i := 0;
      ChainRest(catalog, d, seen, 0);
      MergeUpFirst(d, rest[..0], base);
    } else {
      var k := OnlyFallingBack(catalog, refs, base, seen + {ref});
      i := k + 1;
      ChainRest(catalog, d, seen, i);
      FallingBackAnswers(catalog, refs, base, seen + {ref}, k);
      MergeUpFirst(d, rest[..i], rest[i]);
    }
  }

  /** The catalog answers where the snapshot raises exactly when some document along the chain, which then mixes uses
      with a type, does not resolve itself while all before it merge onto it. */
  lemma FailuresDifferIff(catalog: map<string, Doc>, refs: set<string>, d: Doc, seen: set<string>)
    requires ValidCatalog(catalog) && Kept(catalog, refs) && Loads(catalog, refs) && seen <= refs
    requires ValidDoc(d) && LeadsInto(d, refs)
    ensures FromCatalog(catalog, d, seen).Resolved? && !FromSnapshot(Files(catalog, refs), Stored(d), seen).Resolved?
            <==> exists i: nat :: FallsBackAt(catalog, d, seen, i)
  {
    hide FallsBackAt, FromCatalog, FromSnapshot;
    if FromCatalog(catalog, d, seen).Resolved? && !FromSnapshot(Files(catalog, refs), Stored(d), seen).Resolved? {
      var i := OnlyFallingBack(catalog, refs, d, seen);
    }
    if i: nat :| FallsBackAt(catalog, d, seen, i) { FallingBackAnswers(catalog, refs, d, seen, i); }
  }

  // ---- what the closure misses ----

  /** Over what the closure keeps a reference is missing exactly when the chain ends at a document whose uses is empty:
      the closure takes that for none, and the snapshot looks it up. */
  lemma {:induction false} MissingIff(catalog: map<string, Doc>, refs: set<string>, d: Doc, seen: set<string>)
    requires ValidCatalog(catalog) && Kept(catalog, refs) && seen <= refs && ValidDoc(d) && LeadsInto(d, refs)
    ensures FromSnapshot(Files(catalog, refs), Stored(d), seen) == Raised(MissingRef)
            <==> Last(ChainOf(catalog, d, seen)).uses == Some("")
    decreases refs - seen
  {
    hide Merge;
    assert Files(catalog, refs).Keys == refs;
    if NestedUses(d).Some? && d.uses.value !in seen {
      var ref := d.uses.value;
      MissingIff(catalog, refs, catalog[ref], seen + {ref});
      assert Last(ChainOf(catalog, d, seen)) == Last(ChainOf(catalog, catalog[ref], seen + {ref}));
    }
  }

  /** A chain to a document that names no next one never comes back to where it started. */
  lemma NoReturn(catalog: map<string, Doc>, roots: seq<string>, path: seq<string>, j: nat)
    requires Chain(catalog, roots, path) && Last(path) in catalog && NestedUses(catalog[Last(path)]).None?
    requires 0 < j < |path|
    ensures path[j] != path[0]
  {
    assert NestedUses(catalog[path[|path| - 1 - j]]) == Some(path[|path| - j]);
    if path[j] == path[0] { Repeats(catalog, roots, path, j, |path| - 1 - j); }
  }

  lemma {:induction false} Repeats(catalog: map<string, Doc>, roots: seq<string>, path: seq<string>, j: nat, t: nat)
    requires Chain(catalog, roots, path) && 0 < j && j + t < |path| && path[j] == path[0]
    ensures path[j + t] == path[t]
  {
    if t > 0 {
      Repeats(catalog, roots, path, j, t - 1);
      assert NestedUses(catalog[path[j + t - 1]]) == Some(path[j + t]);
      assert NestedUses(catalog[path[t - 1]]) == Some(path[t]);
    }
  }

  /** The chain of a document that uses the start of such a path ends where the path does. */
  lemma {:induction false} ChainFollows(catalog: map<string, Doc>, roots: seq<string>, path: seq<string>, d: Doc,
                                        seen: set<string>)
    requires Chain(catalog, roots, path) && Last(path) in catalog && catalog[Last(path)].uses == Some("")
    requires "" !in catalog && d.uses == Some(path[0]) && forall i :: 0 <= i < |path| ==> path[i] !in seen
    ensures Last(ChainOf(catalog, d, seen)) == catalog[Last(path)]
    decreases |path|
  {
    var base := catalog[path[0]];
    assert Last(ChainOf(catalog, d, seen)) == Last(ChainOf(catalog, base, seen + {path[0]}));
    if |path| > 1 {
      var rest := path[1..];
      forall i | 0 <= i < |rest|
        ensures rest[i] !in seen + {path[0]}
      {
        NoReturn(catalog, roots, path, i + 1);
      }
      forall i | 0 <= i < |rest| - 1
        ensures rest[i] in catalog && NestedUses(catalog[rest[i]]) == Some(rest[i + 1])
      {
        assert rest[i] == path[i + 1];
      }
      assert Chain(catalog, rest, rest) && Last(rest) == Last(path);
      assert NestedUses(catalog[path[0]]) == Some(path[1]);
      ChainFollows(catalog, rest, rest, base, seen + {path[0]});
    }
  }

  lemma {:induction false} ChainKept(catalog: map<string, Doc>, refs: set<string>, d: Doc, seen: set<string>)
    requires Kept(catalog, refs) && LeadsInto(d, refs) && "" !in catalog
    ensures var last := Last(ChainOf(catalog, d, seen)); last == d || exists r :: r in refs && catalog[r] == last
    decreases catalog.Keys - seen
  {
    if NestedUses(d).Some? && d.uses.value !in seen {
      ChainKept(catalog, refs, catalog[d.uses.value], seen + {d.uses.value});
    }
  }

  lemma {:induction false} UsedFirst(docs: seq<Doc>, ref: string) returns (i: nat)
    requires ref in FirstUses(docs)
    ensures i < |docs| && docs[i].uses == Some(ref)
  {
    i := |docs| - 1;
    if Last(docs).uses != Some(ref) { i := UsedFirst(docs[..|docs| - 1], ref); }
  }

  predicate Misses(catalog: map<string, Doc>, kept: set<string>, d: Doc) {
    FromSnapshot(Files(catalog, kept), Stored(d), {}) == Raised(MissingRef)
  }

  predicate SomeMisses(catalog: map<string, Doc>, kept: set<string>, docs: seq<Doc>) {
    exists i :: 0 <= i < |docs| && Misses(catalog, kept, docs[i])
  }

  /** Some step of the blueprint misses a reference the closure should have collected exactly when one of the documents
      collected has an empty uses. */
  lemma SnapshotMissesIff(catalog: map<string, Doc>, items: seq<Item>, kept: set<string>)
    requires ValidCatalog(catalog) && forall i :: 0 <= i < |Candidates(items)| ==> ValidDoc(Candidates(items)[i])
    requires forall ref :: ref in kept <==> Reachable(catalog, FirstUses(Candidates(items)), ref)
    requires forall ref :: ref in kept ==> ref in catalog
    ensures SomeMisses(catalog, kept, Candidates(items)) <==> exists r :: r in kept && catalog[r].uses == Some("")
  {
    hide FromSnapshot, ChainOf, Candidates, FirstUses;
    var docs := Candidates(items);
    ClosureIsKept(catalog, FirstUses(docs), kept);
    forall i | 0 <= i < |docs|
      ensures LeadsInto(docs[i], kept) && docs[i].uses != Some("")
    {
      StepLeadsInto(catalog, docs, kept, i);
    }
    if SomeMisses(catalog, kept, docs) {
      var i :| 0 <= i < |docs| && Misses(catalog, kept, docs[i]);
      MissingIff(catalog, kept, docs[i], {});
      ChainKept(catalog, kept, docs[i], {});
      var r :| r in kept && catalog[r] == Last(ChainOf(catalog, docs[i], {}));
      assert r in kept && catalog[r].uses == Some("");
    }
    if r :| r in kept && catalog[r].uses == Some("") {
      var path :| Chain(catalog, FirstUses(docs), path) && Last(path) == r;
      var i := PathUsed(catalog, docs, path);
      ChainFollows(catalog, FirstUses(docs), path, docs[i], {});
      MissingIff(catalog, kept, docs[i], {});
      assert Misses(catalog, kept, docs[i]);
    }
  }

  lemma PathUsed(catalog: map<string, Doc>, docs: seq<Doc>, path: seq<string>) returns (i: nat)
    requires Chain(catalog, FirstUses(docs), path)
    ensures i < |docs| && docs[i].uses == Some(path[0])
  {
    i := UsedFirst(docs, path[0]);
  }

  /** The steps of a blueprint whose closure succeeded. */
  lemma StepLeadsInto(catalog: map<string, Doc>, docs: seq<Doc>, kept: set<string>, i: nat)
    requires "" !in catalog && i < |docs| && forall ref :: ref in kept <==> Reachable(catalog, FirstUses(docs), ref)
    requires forall ref :: ref in kept ==> ref in catalog
    ensures LeadsInto(docs[i], kept) && docs[i].uses != Some("")
  {
    if docs[i].uses.Some? {
      FirstUsesHas(docs, i);
      ReachableRoot(catalog, FirstUses(docs), docs[i].uses.value);
    }
  }

  /** It happens: an agent step whose uses is empty, as the schema allows. The closure of a step that uses it is
      complete, the catalog answers, and the snapshot raises. */
  lemma EmptyUsesIsMissed()
    ensures var b := Doc("b", None, Some(""), Some(AgentKind), "", map[Prompt := "go"], map[], []);
            var a := Doc("a", None, Some("b"), None, "", map[], map[], []);
            var catalog := map["b" := b];
            && ValidCatalog(catalog) && ValidDoc(a) && Kept(catalog, {"b"})
            && FromCatalog(catalog, a, {}).Resolved?
            && FromSnapshot(Files(catalog, {"b"}), a, {}) == Raised(MissingRef)
  {
    var b := Doc("b", None, Some(""), Some(AgentKind), "", map[Prompt := "go"], map[], []);
    var a := Doc("a", None, Some("b"), None, "", map[], map[], []);
    var catalog := map["b" := b];
    assert {} + {"b"} == {"b"};
    assert FromCatalog(catalog, b, {"b"}).Unresolved?;
    assert Merge(a, b).Some?;
    assert Files(catalog, {"b"})["b"] == b;
    assert FromSnapshot(Files(catalog, {"b"}), b, {"b"}) == Raised(MissingRef);
  }

  /** References only lead to references of lower rank: there is no cycle among them. */
  ghost predicate Acyclic(catalog: map<string, Doc>, refs: set<string>, rank: string -> nat) {
    forall r :: r in refs && r in catalog && NestedUses(catalog[r]).Some? ==>
      rank(NestedUses(catalog[r]).value) < rank(r)
  }

  /** Nor is there a cycle reported where there is none. */
  lemma {:induction false} NeverCyclic(catalog: map<string, Doc>, refs: set<string>, rank: string -> nat, d: Doc,
                                       seen: set<string>)
    requires ValidCatalog(catalog) && Kept(catalog, refs) && seen <= refs && ValidDoc(d)
    requires Acyclic(catalog, refs, rank) && LeadsInto(d, refs)
    requires NestedUses(d).Some? ==> forall r :: r in seen ==> rank(d.uses.value) < rank(r)
    ensures FromSnapshot(Files(catalog, refs), Stored(d), seen) != Raised(Cycle)
    decreases refs - seen
  {
    hide Merge;
    assert Files(catalog, refs).Keys == refs;
    if NestedUses(d).Some? {
      assert d.uses.value !in seen;
      NeverCyclic(catalog, refs, rank, catalog[d.uses.value], seen + {d.uses.value});
    }
  }

  /** The closure's own set of references: everything a blueprint's steps lead to. */
  lemma ClosureIsKept(catalog: map<string, Doc>, roots: seq<string>, refs: set<string>)
    requires forall r :: r in refs <==> Reachable(catalog, roots, r)
    requires forall r :: r in refs ==> r in catalog
    ensures Kept(catalog, refs)
  {
    forall r | r in refs && NestedUses(catalog[r]).Some?
      ensures NestedUses(catalog[r]).value in refs
    {
      ReachableNext(catalog, roots, r, NestedUses(catalog[r]).value);
    }
  }

  lemma {:induction false} FirstUsesHas(docs: seq<Doc>, i: nat)
    requires i < |docs| && docs[i].uses.Some?
    ensures docs[i].uses.value in FirstUses(docs)
  {
    if i < |docs| - 1 { FirstUsesHas(docs[..|docs| - 1], i); }
  }

  // ---- what a resolved step holds ----

  /** The value of the first document along the chain that sets the field, or the last one's. */
  function Nearest(chain: seq<Doc>, f: Field): string
    requires chain != []
  {
    if |chain| == 1 || f in chain[0].own then FieldValue(chain[0], f) else Nearest(chain[1..], f)
  }

  /** Every document's environment, the nearer ones over the farther. */
  function EnvOf(chain: seq<Doc>): map<string, string>
    requires chain != []
  {
    if |chain| == 1 then chain[0].env else EnvOf(chain[1..]) + chain[0].env
  }

  lemma MergeRest(using: Doc, base: Doc)
    requires Merge(using, base).Some?
    ensures var m := Merge(using, base).value;
            m.id == using.id && m.kind == base.kind && m.command == base.command && m.env == base.env + using.env
            && m.artifacts == []
  {
  }

  lemma MergeField(using: Doc, base: Doc, f: Field)
    requires Merge(using, base).Some?
    ensures FieldValue(Merge(using, base).value, f) == if f in using.own then using.own[f] else FieldValue(base, f)
  {
    assert f in PICKED by {
      match f
      case NameField =>
      case Description =>
      case Prompt =>
      case ScriptPath =>
      case Tools =>
      case Timeout =>
      case Assert =>
      case FailureSpec =>
    }
  }

  const SHARED_WITH_RUN: set<Field> := {NameField, Description, Timeout, Assert, FailureSpec}

  /** What a run shorthand becomes: a command step that runs its text, with its name, description, timeout, assertions
      and failure specification, its environment, and nothing else. An empty text is refused. */
  lemma RunExpands(catalog: map<string, Doc>, d: Doc, seen: set<string>)
    requires d.run.Some?
    ensures d.run.value == "" <==> FromCatalog(catalog, d, seen) == Raised(BadRun)
    ensures d.run.value != "" ==> FromCatalog(catalog, d, seen) == Resolved(Stored(d))
    ensures d.run.value != "" ==>
              var r := Stored(d);
              && r.id == d.id && r.run.None? && r.uses.None? && r.kind == Some(CommandKind)
              && r.command == d.run.value && r.env == d.env && r.artifacts == []
              && forall f: Field :: FieldValue(r, f) == if f in SHARED_WITH_RUN then FieldValue(d, f) else ""
  {
  }

  /** A resolved step keeps the id of the step that asked, takes type and command from the end of its chain, each other
      field from the nearest document that sets it, all environments, and no artifacts but its own. */
  lemma {:induction false} NearestWins(files: map<string, Doc>, d: Doc, seen: set<string>)
    requires FromSnapshot(files, d, seen).Resolved?
    ensures var r := FromSnapshot(files, d, seen).doc; var chain := ChainOf(files, d, seen);
            && r.id == d.id && r.kind == Last(chain).kind && r.command == Last(chain).command
            && (forall f: Field :: FieldValue(r, f) == Nearest(chain, f))
            && r.env == EnvOf(chain) && r.artifacts == if d.uses.None? then d.artifacts else []
    decreases files.Keys - seen
  {
    hide Merge;
    if d.uses.Some? {
      var ref := d.uses.value;
      NearestWins(files, files[ref], seen + {ref});
      var chain := ChainOf(files, d, seen);
      var rest := ChainOf(files, files[ref], seen + {ref});
      assert chain[1..] == rest && Last(chain) == Last(rest);
      var r := FromSnapshot(files, d, seen).doc;
      var base := FromSnapshot(files, files[ref], seen + {ref}).doc;
      MergeRest(d, base);
      forall f: Field
        ensures FieldValue(r, f) == Nearest(chain, f)
      {
        MergeField(d, base, f);
        assert FieldValue(base, f) == Nearest(rest, f);
      }
    }
  }

  /** The type a chain's end gives: of a run shorthand, command. */
  function EndKind(d: Doc): Option<Kind> {
    if d.run.Some? then Some(CommandKind) else d.kind
  }

  /** The command it gives: of a run shorthand, its text. */
  function EndCommand(d: Doc): string {
    if d.run.Some? then d.run.value else d.command
  }

  /** The value of a field along a chain of catalog documents, of which the last may be a run shorthand. */
  function NearestOwn(chain: seq<Doc>, f: Field): string
    requires chain != []
  {
    if |chain| > 1 then if f in chain[0].own then chain[0].own[f] else NearestOwn(chain[1..], f)
    else if chain[0].run.Some? && f !in SHARED_WITH_RUN then ""
    else FieldValue(chain[0], f)
  }

  /** The resolved step keeps the id of the one that asked, has type and command from the end of its chain, where a run
      shorthand gives its text, each other field from the nearest document that sets it, and all environments. */
  predicate IsChainOf(r: Doc, chain: seq<Doc>)
    requires chain != []
  {
    && r.id == chain[0].id && r.kind == EndKind(Last(chain)) && r.command == EndCommand(Last(chain))
    && (forall f: Field :: FieldValue(r, f) == NearestOwn(chain, f)) && r.env == EnvOf(chain)
  }

  /** What a step resolves to, said of the catalog's own documents. */
  lemma {:induction false} ChainDecides(catalog: map<string, Doc>, refs: set<string>, d: Doc, seen: set<string>)
    requires ValidCatalog(catalog) && Kept(catalog, refs) && Loads(catalog, refs) && seen <= refs
    requires ValidDoc(d) && LeadsInto(d, refs) && (d.run.Some? ==> d.run.value != "")
    requires FromSnapshot(Files(catalog, refs), Stored(d), seen).Resolved?
    ensures var r := FromSnapshot(Files(catalog, refs), Stored(d), seen).doc; var chain := ChainOf(catalog, d, seen);
            IsChainOf(r, chain)
    decreases refs - seen
  {
    hide Merge, ExpandRun, FieldValue, ValidDoc;
    StoredKeeps(d);
    if d.run.Some? {
      RunExpands(catalog, d, seen);
    } else if d.uses.Some? {
      ValidStep(catalog, refs, d);
      var ref := d.uses.value;
      var files := Files(catalog, refs);
      assert files.Keys == refs && files[ref] == Stored(catalog[ref]);
      if catalog[ref].run.Some? { LoadedRun(catalog, refs, ref); }
      ChainDecides(catalog, refs, catalog[ref], seen + {ref});
      var chain, rest := ChainOf(catalog, d, seen), ChainOf(catalog, catalog[ref], seen + {ref});
      assert chain[1..] == rest && Last(chain) == Last(rest);
      var r := FromSnapshot(files, d, seen).doc;
      var base := FromSnapshot(files, files[ref], seen + {ref}).doc;
      MergeRest(d, base);
      forall f: Field
        ensures FieldValue(r, f) == NearestOwn(chain, f)
      {
        MergeField(d, base, f);
        assert FieldValue(base, f) == NearestOwn(rest, f);
      }
    }
  }

  lemma StoredKeeps(d: Doc)
    requires ValidDoc(d)
    ensures d.run.None? ==> Stored(d) == d
    ensures d.run.Some? ==> d.uses.None?
  {
  }

  lemma ValidStep(catalog: map<string, Doc>, refs: set<string>, d: Doc)
    requires ValidCatalog(catalog) && Kept(catalog, refs) && d.uses.Some? && d.uses.value in refs
    ensures ValidDoc(catalog[d.uses.value]) && LeadsInto(catalog[d.uses.value], refs)
  {
  }

  /** A run shorthand the snapshot keeps has a text, or the snapshot would not load. */
  lemma LoadedRun(catalog: map<string, Doc>, refs: set<string>, ref: string)
    requires Loads(catalog, refs) && ref in refs && ref in catalog && catalog[ref].run.Some?
    ensures catalog[ref].run.value != ""
  {
  }

  /** Every step of the blueprint, body steps included, comes out of the snapshot as the definition the unchanged
      catalog gives, or raises: for a missing reference exactly when its chain ends at an empty uses, for a cycle only
      where there is one. */
  lemma SnapshotMeansCatalog(catalog: map<string, Doc>, items: seq<Item>, kept: map<string, Doc>, i: nat)
    requires ValidCatalog(catalog) && i < |Candidates(items)| && ValidDoc(Candidates(items)[i])
    requires forall ref :: ref in kept <==> Reachable(catalog, FirstUses(Candidates(items)), ref)
    requires forall ref :: ref in kept ==> ref in catalog && kept[ref] == catalog[ref]
    requires Loads(catalog, kept.Keys)
    ensures var d := Candidates(items)[i]; var s := FromSnapshot(Files(catalog, kept.Keys), d, {});
            && (s.Resolved? ==> FromCatalog(catalog, d, {}) == Executable(s.doc))
            && (s.Resolved? && FromCatalog(catalog, d, {}).Resolved? ==>
                  IsChainOf(FromCatalog(catalog, d, {}).doc, ChainOf(catalog, d, {})))
            && (s == Raised(MissingRef) <==> Last(ChainOf(catalog, d, {})).uses == Some(""))
            && (forall rank :: Acyclic(catalog, kept.Keys, rank) ==> s != Raised(Cycle))
            && (d.run.None? ==>
                  (s.Raised? && FromCatalog(catalog, d, {}).Resolved? <==>
                     exists k: nat :: FallsBackAt(catalog, d, {}, k)))
  {
    hide FallsBackAt, FromCatalog, FromSnapshot, Chain, ChainOf, IsChainOf;
    var d := Candidates(items)[i];
    ClosureIsKept(catalog, FirstUses(Candidates(items)), kept.Keys);
    StepLeadsInto(catalog, Candidates(items), kept.Keys, i);
    MissingIff(catalog, kept.Keys, d, {});
    forall rank | Acyclic(catalog, kept.Keys, rank)
      ensures FromSnapshot(Files(catalog, kept.Keys), Stored(d), {}) != Raised(Cycle)
    {
      NeverCyclic(catalog, kept.Keys, rank, d, {});
    }
    SnapshotAgrees(catalog, kept.Keys, d, {});
    FailuresDifferIff(catalog, kept.Keys, d, {});
    RunStands(catalog, Files(catalog, kept.Keys), d);
    if FromCatalog(catalog, d, {}).Resolved? && FromSnapshot(Files(catalog, kept.Keys), d, {}).Resolved? {
      if d.run.Some? { RunExpands(catalog, d, {}); }
      ChainDecides(catalog, kept.Keys, d, {});
    }
  }

  /** A blueprint step with run is expanded when it executes. */
  lemma RunStands(catalog: map<string, Doc>, files: map<string, Doc>, d: Doc)
    requires ValidDoc(d)
    ensures d.run.Some? ==> FromSnapshot(files, d, {}) == Resolved(d) && FromCatalog(catalog, d, {}) == Executable(d)
    ensures d.run.Some? ==> ChainOf(catalog, d, {}) == [d] && d.uses.None?
    ensures d.run.None? ==> Stored(d) == d
    ensures d.run.Some? && ExpandRun(d).Some? ==> FromSnapshot(files, Stored(d), {}) == Resolved(Stored(d))
    ensures d.run.None? && FromSnapshot(files, d, {}).Resolved? ==> FromSnapshot(files, d, {}).doc.run.None?
  {
  }

  /** When a step with a type has what its type needs: a command, or a prompt or script path. */
  predicate Supplied(kind: Option<Kind>, command: string, prompt: string, script: string) {
    match kind
    case None => false
    case Some(AgentKind) => prompt != ""
    case Some(ScriptKind) => script != ""
    case Some(_) => command != ""
  }

  /** At this document of the chain the type of the end has what it needs among the documents from there on. */
  predicate SuppliedFrom(chain: seq<Doc>, i: nat)
    requires i < |chain|
  {
    Supplied(Last(chain).kind, Last(chain).command, Nearest(chain[i..], Prompt), Nearest(chain[i..], ScriptPath))
  }

  lemma SuppliedRest(d: Doc, rest: seq<Doc>, i: nat)
    requires i < |rest|
    ensures SuppliedFrom([d] + rest, i + 1) == SuppliedFrom(rest, i)
  {
    assert ([d] + rest)[i + 1..] == rest[i..];
  }

  lemma SuppliedFirst(d: Doc, rest: seq<Doc>)
    requires rest != []
    ensures SuppliedFrom([d] + rest, 0)
         == Supplied(Last(rest).kind, Last(rest).command,
                     if Prompt in d.own then d.own[Prompt] else Nearest(rest, Prompt),
                     if ScriptPath in d.own then d.own[ScriptPath] else Nearest(rest, ScriptPath))
  {
    assert ([d] + rest)[0..] == [d] + rest && ([d] + rest)[1..] == rest;
  }

  /** A chain resolves from the snapshot exactly when it ends at a document without uses and, at every document before,
      the type of that end is supplied. */
  lemma {:induction false} ResolvesIff(files: map<string, Doc>, d: Doc, seen: set<string>)
    ensures var chain := ChainOf(files, d, seen);
            FromSnapshot(files, d, seen).Resolved? <==>
              Last(chain).uses.None? && forall i :: 0 <= i < |chain| - 1 ==> SuppliedFrom(chain, i)
    decreases files.Keys - seen
  {
    hide SuppliedFrom, Supplied, Nearest, Merge;
    if d.uses.Some? && d.uses.value in files && d.uses.value !in seen {
      var ref := d.uses.value;
      var chain, rest := ChainOf(files, d, seen), ChainOf(files, files[ref], seen + {ref});
      ResolvesIff(files, files[ref], seen + {ref});
      assert chain == [d] + rest;
      forall i | 0 <= i < |rest|
        ensures SuppliedFrom(chain, i + 1) == SuppliedFrom(rest, i)
      {
        SuppliedRest(d, rest, i);
      }
      assert forall i :: 0 < i < |rest| ==> SuppliedFrom(chain, i) == SuppliedFrom(rest, i - 1);
      SuppliedFirst(d, rest);
      if FromSnapshot(files, files[ref], seen + {ref}).Resolved? {
        var base := FromSnapshot(files, files[ref], seen + {ref}).doc;
        NearestWins(files, files[ref], seen + {ref});
        assert FieldValue(base, Prompt) == Nearest(rest, Prompt);
        assert FieldValue(base, ScriptPath) == Nearest(rest, ScriptPath);
        MergesIff(d, base);
      }
    }
  }

  /** When a using step merges onto its base. */
  lemma MergesIff(using: Doc, base: Doc)
    ensures Merge(using, base).Some? <==>
              Supplied(base.kind, base.command,
                       if Prompt in using.own then using.own[Prompt] else FieldValue(base, Prompt),
                       if ScriptPath in using.own then using.own[ScriptPath] else FieldValue(base, ScriptPath))
  {
  }

  /** It happens: a document with uses and a type whose own merge fails, used by a step that merges onto it. */
  lemma MixedDocumentFallsBack()
    ensures var bad := Doc("c", None, None, Some(ScriptKind), "", map[ScriptPath := "s"], map[], []);
            var top := Doc("a", None, Some("b"), None, "", map[], map[], []);
            var over := Doc("b", None, Some("c"), Some(AgentKind), "", map[Prompt := "go", ScriptPath := ""], map[],
                            []);
            var catalog := map["b" := over, "c" := bad];
            && FromCatalog(catalog, top, {}).Resolved?
            && FromSnapshot(Files(catalog, {"b", "c"}), top, {}).Raised?
  {
    var bad := Doc("c", None, None, Some(ScriptKind), "", map[ScriptPath := "s"], map[], []);
    var top := Doc("a", None, Some("b"), None, "", map[], map[], []);
    var over := Doc("b", None, Some("c"), Some(AgentKind), "", map[Prompt := "go", ScriptPath := ""], map[], []);
    var catalog := map["b" := over, "c" := bad];
    assert {} + {"b"} == {"b"} && {"b"} + {"c"} == {"b", "c"};
    assert FromCatalog(catalog, bad, {"b", "c"}) == Resolved(bad);
    assert !Merge(over, bad).Some?;
    assert FromCatalog(catalog, over, {"b"}).Unresolved?;
    assert Merge(top, over).Some?;
    var files := Files(catalog, {"b", "c"});
    assert files["c"] == bad && files["b"] == over;
    assert FromSnapshot(files, bad, {"b", "c"}) == Resolved(bad);
    assert FromSnapshot(files, over, {"b"}).Raised?;
  }
}
