/** Configuration trees: in-place repair against defaults, dot-path edits, and the layered merge (config/generator.py,
    config/mutate.py, config/services/hierarchical_loader.py). */
module Config {
  import opened StateModels

  /** A JSON value: an object, or anything else, which the code treats alike. */
  datatype Json = Scalar(text: string) | Obj(entries: map<string, Json>)

  type Path = seq<string>

  // ---- the layered merge ----

  /** _deep_merge: override over base, object by object. */
  function DeepMerge(base: map<string, Json>, override: map<string, Json>): map<string, Json>
    decreases Obj(override)
  {
    map k | k in base.Keys + override.Keys ::
      if k !in override then base[k]
      else if k in base && base[k].Obj? && override[k].Obj? then Obj(DeepMerge(base[k].entries, override[k].entries))
      else override[k]
  }

  /** The loop of _deep_merge, in any order of keys. */
  method DeepMergeLoop(base: map<string, Json>, override: map<string, Json>) returns (result: map<string, Json>)
    ensures result == DeepMerge(base, override)
    decreases Obj(override)
  {
    result := base;
    var todo := override.Keys;
    while todo != {}
      invariant todo <= override.Keys
      invariant result.Keys == base.Keys + (override.Keys - todo)
      invariant forall k :: k in result ==>
                  result[k] == if k in override.Keys - todo then DeepMerge(base, override)[k] else base[k]
      decreases todo
    {
      var k :| k in todo;
      if override[k].Obj? && k in result && result[k].Obj? {
        var nested := DeepMergeLoop(result[k].entries, override[k].entries);
        result := result[k := Obj(nested)];
      } else {
        result := result[k := override[k]];
      }
      todo := todo - {k};
    }
    assert result.Keys == DeepMerge(base, override).Keys;
  }

  /** The value at a path, when every segment before the last leads to an object. */
  function Get(root: map<string, Json>, path: Path): Option<Json>
    requires path != []
    decreases |path|
  {
    if path[0] !in root then None
    else if |path| == 1 then Some(root[path[0]])
    else if root[path[0]].Obj? then Get(root[path[0]].entries, path[1..])
    else None
  }

  /** A scalar stands where the path needs an object. */
  predicate Blocked(root: map<string, Json>, path: Path)
    requires path != []
    decreases |path|
  {
    |path| > 1 && path[0] in root && (root[path[0]].Scalar? || Blocked(root[path[0]].entries, path[1..]))
  }

  /** Blocked means exactly that some shorter part of the path holds a scalar. */
  lemma {:induction false} BlockedIff(root: map<string, Json>, path: Path)
    requires path != []
    ensures Blocked(root, path) <==>
              exists i :: 0 < i < |path| && Get(root, path[..i]).Some? && Get(root, path[..i]).value.Scalar?
    decreases |path|
  {
    if |path| > 1 && path[0] in root {
      if root[path[0]].Scalar? {
        assert Get(root, path[..1]) == Some(root[path[0]]);
      } else {
        var m := root[path[0]].entries;
        BlockedIff(m, path[1..]);
        forall i | 1 < i < |path|
          ensures Get(root, path[..i]) == Get(m, path[1..][..i - 1])
        {
          assert path[..i][1..] == path[1..][..i - 1];
        }
        if Blocked(root, path) {
          var i :| 0 < i < |path[1..]| && Get(m, path[1..][..i]).Some? && Get(m, path[1..][..i]).value.Scalar?;
          assert Get(root, path[..i + 1]) == Get(m, path[1..][..i + 1 - 1]);
        }
        if i :| 0 < i < |path| && Get(root, path[..i]).Some? && Get(root, path[..i]).value.Scalar? {
          if i > 1 { assert Get(m, path[1..][..i - 1]) == Get(root, path[..i]); }
        }
      }
    }
  }

  /** What a merge holds at a path: the override's scalar or object there, nothing where the override blocks it, and
      the base's value where the override is silent. */
  lemma {:induction false} MergeGet(base: map<string, Json>, override: map<string, Json>, path: Path)
    requires path != []
    ensures var r := Get(DeepMerge(base, override), path); var o := Get(override, path); var b := Get(base, path);
            if Blocked(override, path) then r.None?
            else if o.None? then r == b
            else if o.value.Obj? && b.Some? && b.value.Obj? then
              r == Some(Obj(DeepMerge(b.value.entries, o.value.entries)))
            else r == o
    decreases |path|
  {
    var k := path[0];
    if Get(override, path).Some? { PresentNotBlocked(override, path); }
    if |path| > 1 && k in override && override[k].Obj? {
      if k in base && base[k].Obj? {
        MergeGet(base[k].entries, override[k].entries, path[1..]);
      }
    }
  }

  /** load_hierarchical_config's fold, the first layer weakest. */
  function Layered(layers: seq<map<string, Json>>): map<string, Json> {
    if layers == [] then map[] else DeepMerge(Layered(layers[..|layers| - 1]), Last(layers))
  }

  /** A layer that says nothing about a path: no value there and no scalar in its way. */
  predicate Silent(layer: map<string, Json>, path: Path)
    requires path != []
  {
    Get(layer, path).None? && !Blocked(layer, path)
  }

  /** Precedence: a scalar comes from the last layer that is not silent about its path. */
  lemma {:induction false} LastLayerWins(layers: seq<map<string, Json>>, path: Path, j: nat)
    requires path != [] && j < |layers|
    requires Get(layers[j], path).Some? && Get(layers[j], path).value.Scalar?
    requires forall i :: j < i < |layers| ==> Silent(layers[i], path)
    ensures Get(Layered(layers), path) == Get(layers[j], path)
    decreases |layers|
  {
    MergeGet(Layered(layers[..|layers| - 1]), Last(layers), path);
    PresentNotBlocked(layers[j], path);
    if j < |layers| - 1 { LastLayerWins(layers[..|layers| - 1], path, j); }
  }

  lemma {:induction false} PresentNotBlocked(root: map<string, Json>, path: Path)
    requires path != [] && Get(root, path).Some?
    ensures !Blocked(root, path)
    decreases |path|
  {
    if |path| > 1 { PresentNotBlocked(root[path[0]].entries, path[1..]); }
  }

  // ---- when the order of merging matters ----

  predicate ObjAt(root: map<string, Json>, path: Path)
    requires path != []
  {
    Get(root, path).Some? && Get(root, path).value.Obj?
  }

  /** The middle layer puts a scalar at this path over an object of the first, and the last puts an object there
      again. */
  predicate Interrupted(a: map<string, Json>, b: map<string, Json>, c: map<string, Json>, path: Path)
    requires path != []
  {
    ObjAt(a, path) && Get(b, path).Some? && Get(b, path).value.Scalar? && ObjAt(c, path)
  }

  /** The last layer's object there has everything the first one's has to add. */
  predicate Covered(a: map<string, Json>, c: map<string, Json>, path: Path)
    requires path != [] && ObjAt(a, path) && ObjAt(c, path)
  {
    DeepMerge(Get(a, path).value.entries, Get(c, path).value.entries) == Get(c, path).value.entries
  }

  ghost predicate InterruptionsCovered(a: map<string, Json>, b: map<string, Json>, c: map<string, Json>) {
    forall path: Path :: path != [] && Interrupted(a, b, c, path) ==> Covered(a, c, path)
  }

  /** What the two orders leave at one key. */
  lemma OrdersAt(a: map<string, Json>, b: map<string, Json>, c: map<string, Json>, k: string)
    requires k in a || k in b || k in c
    ensures k in DeepMerge(DeepMerge(a, b), c) && k in DeepMerge(a, DeepMerge(b, c))
    ensures var l := DeepMerge(DeepMerge(a, b), c)[k]; var r := DeepMerge(a, DeepMerge(b, c))[k];
            if k in a && k in b && k in c && a[k].Obj? && c[k].Obj? then
              if b[k].Obj? then
                && l == Obj(DeepMerge(DeepMerge(a[k].entries, b[k].entries), c[k].entries))
                && r == Obj(DeepMerge(a[k].entries, DeepMerge(b[k].entries, c[k].entries)))
              else l == c[k] && r == Obj(DeepMerge(a[k].entries, c[k].entries))
            else l == r
  {
    var bc := DeepMerge(b, c);
    var ab := DeepMerge(a, b);
    assert k in b || k in c ==> k in bc;
    assert k in a || k in b ==> k in ab;
  }

  lemma CoveredBelow(a: map<string, Json>, b: map<string, Json>, c: map<string, Json>, k: string)
    requires k in a && k in b && k in c && a[k].Obj? && b[k].Obj? && c[k].Obj?
    requires InterruptionsCovered(a, b, c)
    ensures InterruptionsCovered(a[k].entries, b[k].entries, c[k].entries)
  {
    forall path: Path | path != [] && Interrupted(a[k].entries, b[k].entries, c[k].entries, path)
      ensures Covered(a[k].entries, c[k].entries, path)
    {
      var longer := [k] + path;
      assert longer[1..] == path && longer[0] == k;
      assert Interrupted(a, b, c, longer) && Covered(a, c, longer);
    }
  }

  /** Covered interruptions make the orders agree. */
  lemma {:induction false} CoveredAgree(a: map<string, Json>, b: map<string, Json>, c: map<string, Json>)
    requires InterruptionsCovered(a, b, c)
    ensures DeepMerge(DeepMerge(a, b), c) == DeepMerge(a, DeepMerge(b, c))
    decreases Obj(c)
  {
    hide DeepMerge;
    var l, r := DeepMerge(DeepMerge(a, b), c), DeepMerge(a, DeepMerge(b, c));
    MergeKeys(a, b, c);
    forall k | k in l
      ensures l[k] == r[k]
    {
      OrdersAt(a, b, c, k);
      if k in a && k in b && k in c && a[k].Obj? && c[k].Obj? {
        if b[k].Obj? {
          CoveredBelow(a, b, c, k);
          CoveredAgree(a[k].entries, b[k].entries, c[k].entries);
        } else {
          assert Interrupted(a, b, c, [k]) && Covered(a, c, [k]);
        }
      }
    }
  }

  lemma MergeKeys(a: map<string, Json>, b: map<string, Json>, c: map<string, Json>)
    ensures DeepMerge(DeepMerge(a, b), c).Keys == a.Keys + b.Keys + c.Keys == DeepMerge(a, DeepMerge(b, c)).Keys
  {
  }

  /** And only they do. */
  lemma {:induction false} AgreeCovered(a: map<string, Json>, b: map<string, Json>, c: map<string, Json>, path: Path)
    requires DeepMerge(DeepMerge(a, b), c) == DeepMerge(a, DeepMerge(b, c))
    requires path != [] && Interrupted(a, b, c, path)
    ensures Covered(a, c, path)
    decreases |path|
  {
    hide DeepMerge;
    var k := path[0];
    OrdersAt(a, b, c, k);
    if |path| > 1 {
      AgreeCovered(a[k].entries, b[k].entries, c[k].entries, path[1..]);
    }
  }

  /** Merging three layers from the left, as the loader does, or from the right is the same exactly when wherever the
      middle layer puts a scalar between two objects the last one's object covers the first one's. */
  lemma AssociativeIff(a: map<string, Json>, b: map<string, Json>, c: map<string, Json>)
    ensures DeepMerge(DeepMerge(a, b), c) == DeepMerge(a, DeepMerge(b, c)) <==> InterruptionsCovered(a, b, c)
  {
    hide DeepMerge;
    if InterruptionsCovered(a, b, c) { CoveredAgree(a, b, c); }
    if DeepMerge(DeepMerge(a, b), c) == DeepMerge(a, DeepMerge(b, c)) {
      forall path: Path | path != [] && Interrupted(a, b, c, path)
        ensures Covered(a, c, path)
      {
        AgreeCovered(a, b, c, path);
      }
    }
  }

  // ---- dot paths ----

  /** str.split("."). */
  function Split(s: string): (r: seq<string>)
    ensures r != []
  {
    if s == "" then [""]
    else if s[0] == '.' then [""] + Split(s[1..])
    else
      var rest := Split(s[1..]);
      [[s[0]] + rest[0]] + rest[1..]
  }

  function Join(keys: seq<string>): string
    requires keys != []
  {
    if |keys| == 1 then keys[0] else keys[0] + "." + Join(keys[1..])
  }

  /** str.isspace of one character. */
  predicate WhiteSpace(c: char) {
    var n := c as int;
    || 0x09 <= n <= 0x0D || 0x1C <= n <= 0x20 || n == 0x85 || n == 0xA0 || n == 0x1680 || 0x2000 <= n <= 0x200A
    || n == 0x2028 || n == 0x2029 || n == 0x202F || n == 0x205F || n == 0x3000
  }

  predicate Blank(s: string) {
    forall i :: 0 <= i < |s| ==> WhiteSpace(s[i])
  }

  /** The segments of a dot path; a blank path and an empty segment are refused. */
  function ParsePath(s: string): (r: Option<Path>)
    ensures r.Some? ==> r.value != []
  {
    if Blank(s) || "" in Split(s) then None else Some(Split(s))
  }

  /** Splitting and joining undo each other. */
  lemma {:induction false} SplitJoin(s: string)
    ensures Join(Split(s)) == s
  {
    if s != "" {
      SplitJoin(s[1..]);
      var rest := Split(s[1..]);
      if s[0] == '.' {
        assert ([""] + rest)[1..] == rest;
      } else {
        JoinHead(s[0], rest);
      }
    }
  }

  lemma JoinHead(c: char, keys: seq<string>)
    requires keys != []
    ensures Join([[c] + keys[0]] + keys[1..]) == [c] + Join(keys)
  {
    if |keys| > 1 { assert ([[c] + keys[0]] + keys[1..])[1..] == keys[1..]; }
  }

  lemma {:induction false} JoinSplit(keys: seq<string>)
    requires keys != [] && forall i :: 0 <= i < |keys| ==> '.' !in keys[i]
    ensures Split(Join(keys)) == keys
    decreases |keys|, |keys[0]|
  {
    var s := Join(keys);
    if keys[0] != "" {
      var fewer := keys[0 := keys[0][1..]];
      assert fewer[1..] == keys[1..];
      assert s == [keys[0][0]] + Join(fewer) && s[1..] == Join(fewer);
      assert keys[0][0] in keys[0];
      JoinSplit(fewer);
      assert [keys[0][0]] + fewer[0] == keys[0];
    } else if |keys| > 1 {
      assert s == "." + Join(keys[1..]) && s[1..] == Join(keys[1..]);
      JoinSplit(keys[1..]);
      assert keys == [""] + keys[1..];
    }
  }

  /** A dot followed by another, or by nothing. */
  predicate Gap(s: string) {
    exists i :: 0 <= i < |s| && s[i] == '.' && (i == |s| - 1 || s[i + 1] == '.')
  }

  lemma GapRest(s: string)
    requires s != ""
    ensures Gap(s) <==> (s[0] == '.' && (|s| == 1 || s[1] == '.')) || Gap(s[1..])
  {
    var rest := s[1..];
    if Gap(rest) {
      var i :| 0 <= i < |rest| && rest[i] == '.' && (i == |rest| - 1 || rest[i + 1] == '.');
      assert s[i + 1] == '.';
    }
    if i :| 0 < i < |s| && s[i] == '.' && (i == |s| - 1 || s[i + 1] == '.') {
      assert rest[i - 1] == '.';
    }
  }

  /** The first segment is what stands before the first dot. */
  lemma SplitFirst(s: string)
    ensures Split(s)[0] == "" <==> s == "" || s[0] == '.'
    ensures s != "" ==> Split(s)[1..] == if s[0] == '.' then Split(s[1..]) else Split(s[1..])[1..]
    ensures "" in Split(s) <==> Split(s)[0] == "" || "" in Split(s)[1..]
  {
    assert Split(s) == [Split(s)[0]] + Split(s)[1..];
  }

  lemma {:induction false} LaterSegmentsIff(s: string)
    ensures "" in Split(s)[1..] <==> Gap(s)
  {
    hide Gap;
    if s == "" {
      assert !Gap(s) by { NoGap(); }
    } else {
      hide Split;
      LaterSegmentsIff(s[1..]);
      GapRest(s);
      SplitFirst(s);
      SplitFirst(s[1..]);
    }
  }

  lemma NoGap()
    ensures !Gap("")
  {
  }

  /** A segment is empty exactly when the string is, or a dot stands at an end of it or next to another. */
  lemma EmptySegmentIff(s: string)
    ensures "" in Split(s) <==> s == "" || s[0] == '.' || Gap(s)
  {
    hide Split, Gap;
    LaterSegmentsIff(s);
    SplitFirst(s);
  }

  /** The dot path of these keys: none of them empty or with a dot in it. */
  predicate Names(dotPath: string, keys: Path) {
    keys != [] && (forall i :: 0 <= i < |keys| ==> keys[i] != "" && '.' !in keys[i]) && Join(keys) == dotPath
  }

  lemma NamedPath(dotPath: string, keys: Path)
    requires Names(dotPath, keys) && !Blank(dotPath)
    ensures ParsePath(dotPath) == Some(keys)
  {
    JoinSplit(keys);
  }

  lemma {:induction false} SegmentsDotFree(s: string)
    ensures forall i :: 0 <= i < |Split(s)| ==> '.' !in Split(s)[i]
  {
    if s != "" { SegmentsDotFree(s[1..]); }
  }

  /** Every string that is not refused is the dot path of some keys. */
  lemma ParsedIsNamed(dotPath: string)
    requires ParsePath(dotPath).Some?
    ensures Names(dotPath, ParsePath(dotPath).value)
  {
    SplitJoin(dotPath);
    SegmentsDotFree(dotPath);
  }

  /** Some shorter part of the path holds a scalar. */
  predicate ScalarAbove(root: map<string, Json>, keys: Path)
    requires keys != []
  {
    exists i :: 0 < i < |keys| && Get(root, keys[..i]).Some? && Get(root, keys[..i]).value.Scalar?
  }

  // ---- in-place repair ----

  /** The paths a repair inserts: absent from the tree, present in the defaults, everything above them an object in
      both. */
  predicate Missing(existing: map<string, Json>, defaults: map<string, Json>, path: Path): (r: bool)
    ensures r ==> path != [] && path[0] in defaults
    decreases |path|
  {
    path != [] && path[0] in defaults &&
    if path[0] !in existing then |path| == 1
    else |path| > 1 && existing[path[0]].Obj? && defaults[path[0]].Obj?
         && Missing(existing[path[0]].entries, defaults[path[0]].entries, path[1..])
  }

  /** The defaults have a value there, the tree has none, and all shorter parts of the path are objects of the tree. */
  predicate Lacks(existing: map<string, Json>, defaults: map<string, Json>, path: Path) {
    && path != [] && Get(defaults, path).Some? && Get(existing, path).None?
    && forall i :: 0 < i < |path| ==> ObjAt(existing, path[..i])
  }

  lemma {:induction false} MissingIff(existing: map<string, Json>, defaults: map<string, Json>, path: Path)
    ensures Missing(existing, defaults, path) <==> Lacks(existing, defaults, path)
    decreases |path|
  {
    if |path| > 1 && path[0] in defaults && path[0] in existing && existing[path[0]].Obj? && defaults[path[0]].Obj? {
      var m := existing[path[0]].entries;
      MissingIff(m, defaults[path[0]].entries, path[1..]);
      forall i | 1 < i < |path|
        ensures Get(existing, path[..i]) == Get(m, path[1..][..i - 1])
      {
        assert path[..i][1..] == path[1..][..i - 1];
      }
      assert Get(existing, path[..1]) == Some(existing[path[0]]);
      if Lacks(existing, defaults, path) {
        forall i | 0 < i < |path[1..]|
          ensures ObjAt(m, path[1..][..i])
        {
          assert ObjAt(existing, path[..i + 1]);
        }
      }
    } else if |path| > 1 {
      assert ObjAt(existing, path[..1]) <==> path[0] in existing && existing[path[0]].Obj?;
    }
  }

  datatype EditResult = Edited | Unchanged | InvalidPath | Collision

  /** A configuration document, edited in place. Nested objects are values of the tree they are in. */
  class Document {
    var root: map<string, Json>

    constructor (root: map<string, Json>)
      ensures this.root == root
    {
      this.root := root;
    }

    /** merge_missing_keys: exactly the layered merge of the document over the defaults is left, and exactly the missing
        paths are reported, once each. */
    method MergeMissingKeys(defaults: map<string, Json>) returns (inserted: seq<Path>)
      modifies this
      ensures root == DeepMerge(defaults, old(root))
      ensures forall p :: p in inserted <==> Lacks(old(root), defaults, p)
      ensures forall i, j :: 0 <= i < j < |inserted| ==> inserted[i] != inserted[j]
    {
      forall p
        ensures Missing(root, defaults, p) <==> Lacks(root, defaults, p)
      {
        MissingIff(root, defaults, p);
      }
      root, inserted := Repair(root, defaults);
    }

    /** set_nested_value: refused for a blank string, and for a dot at an end of it or next to another; otherwise the
        string names keys, and the value is there afterwards unless a shorter part of the path holds a scalar. Either
        error leaves the document alone. */
    method SetNestedValue(dotPath: string, value: Json) returns (r: EditResult)
      modifies this
      ensures r.InvalidPath? <==>
                || (forall i :: 0 <= i < |dotPath| ==> WhiteSpace(dotPath[i]))
                || (exists i :: 0 <= i < |dotPath| && dotPath[i] == '.'
                                && (i == 0 || i == |dotPath| - 1 || dotPath[i + 1] == '.'))
      ensures !r.InvalidPath? ==> exists keys :: Names(dotPath, keys)
      ensures forall keys :: Names(dotPath, keys) && !r.InvalidPath? ==>
                && (r.Edited? <==> !ScalarAbove(old(root), keys)) && (r.Collision? <==> ScalarAbove(old(root), keys))
                && (r.Edited? ==> root == Put(old(root), keys, value) && Get(root, keys) == Some(value))
      ensures !r.Edited? ==> root == old(root)
    {
      EmptySegmentIff(dotPath);
      var path := ParsePath(dotPath);
      if path.None? {
        return InvalidPath;
      }
      ParsedIsNamed(dotPath);
      BlockedIff(root, path.value);
      PutLaws(root, path.value, value, value);
      forall keys | Names(dotPath, keys)
        ensures keys == path.value
      {
        NamedPath(dotPath, keys);
      }
      var ok := Set(path.value, value);
      r := if ok then Edited else Collision;
    }

    /** unset_nested_value: refused for the same strings; removal exactly when the value is there, Unchanged when there
        was nothing to remove. */
    method UnsetNestedValue(dotPath: string) returns (r: EditResult)
      modifies this
      ensures r.InvalidPath? <==>
                || (forall i :: 0 <= i < |dotPath| ==> WhiteSpace(dotPath[i]))
                || (exists i :: 0 <= i < |dotPath| && dotPath[i] == '.'
                                && (i == 0 || i == |dotPath| - 1 || dotPath[i + 1] == '.'))
      ensures !r.InvalidPath? ==> exists keys :: Names(dotPath, keys)
      ensures forall keys :: Names(dotPath, keys) && !r.InvalidPath? ==>
                && (r.Edited? <==> Get(old(root), keys).Some?) && (r.Collision? <==> ScalarAbove(old(root), keys))
                && (r.Edited? ==> root == Remove(old(root), keys) && Get(root, keys).None?)
      ensures !r.Edited? ==> root == old(root)
    {
      EmptySegmentIff(dotPath);
      var path := ParsePath(dotPath);
      if path.None? {
        return InvalidPath;
      }
      ParsedIsNamed(dotPath);
      BlockedIff(root, path.value);
      if Get(root, path.value).Some? {
        PresentNotBlocked(root, path.value);
        RemoveLaws(root, path.value, path.value);
      }
      forall keys | Names(dotPath, keys)
        ensures keys == path.value
      {
        NamedPath(dotPath, keys);
      }
      var existed := Unset(path.value);
      r := if existed.None? then Collision else if existed.value then Edited else Unchanged;
    }

    /** The walk of set_nested_value, which inserts an empty object at every missing segment before the last and then
        assigns; false stands for a collision. No collision can follow an insertion. */
    method Set(path: Path, value: Json) returns (ok: bool)
      requires path != []
      modifies this
      ensures ok == !Blocked(old(root), path)
      ensures root == if ok then Put(old(root), path, value) else old(root)
    {
      var i := 0;
      var current := root;
      ghost var inserted := false;
      PathRest(path);
      while i < |path| - 1
        invariant i <= |path| - 1 && path[i..] != []
        invariant Inside(root, path[..i]) == Some(current)
        invariant Blocked(old(root), path) <==> Blocked(current, path[i..])
        invariant inserted ==> current == map[]
        invariant !inserted ==> root == old(root)
        invariant !Blocked(old(root), path) ==> Put(root, path, value) == Put(old(root), path, value)
      {
        assert path[i..][0] == path[i] && path[i..][1..] == path[i + 1..];
        if path[i] !in current {
          InsertKeepsPut(root, path, i, value);
          root := Put(root, path[..i + 1], Obj(map[]));
          inserted := true;
        }
        InsideNext(root, path, i);
        var node := Inside(root, path[..i]).value[path[i]];
        if node.Scalar? {
          return false;
        }
        current := node.entries;
        i := i + 1;
      }
      assert path[i..] == [path[i]];
      root := Put(root, path, value);
      ok := true;
    }

    /** The walk and the removal of unset_nested_value: whether the key was there, None on a collision. Objects left
        empty stay. */
    method Unset(path: Path) returns (existed: Option<bool>)
      requires path != []
      modifies this
      ensures existed.None? <==> Blocked(old(root), path)
      ensures existed.Some? ==> existed.value == Get(old(root), path).Some?
      ensures root == if existed == Some(true) then Remove(old(root), path) else old(root)
    {
      var i := 0;
      var current := root;
      PathRest(path);
      while i < |path| - 1
        invariant i <= |path| - 1 && path[i..] != []
        invariant Blocked(root, path) <==> Blocked(current, path[i..])
        invariant Get(root, path) == Get(current, path[i..])
      {
        assert path[i..][0] == path[i] && path[i..][1..] == path[i + 1..];
        if path[i] !in current {
          return Some(false);
        }
        if current[path[i]].Scalar? {
          return None;
        }
        current := current[path[i]].entries;
        i := i + 1;
      }
      if path[i] !in current {
        return Some(false);
      }
      root := Remove(root, path);
      existed := Some(true);
    }
  }

  /** The object this path leads to; the empty path leads to the root. */
  function Inside(root: map<string, Json>, path: Path): Option<map<string, Json>> {
    if path == [] then Some(root)
    else if Get(root, path).Some? && Get(root, path).value.Obj? then Some(Get(root, path).value.entries)
    else None
  }

  /** The empty object inserted where segment i is missing does not show once the value is assigned below it. */
  lemma {:induction false} InsertKeepsPut(root: map<string, Json>, path: Path, i: nat, value: Json)
    requires i < |path| - 1 && Inside(root, path[..i]).Some? && path[i] !in Inside(root, path[..i]).value
    ensures var r := Put(root, path[..i + 1], Obj(map[]));
            && Put(r, path, value) == Put(root, path, value)
            && Inside(r, path[..i]).Some? && path[i] in Inside(r, path[..i]).value
            && Inside(r, path[..i]).value[path[i]] == Obj(map[])
    decreases i
  {
    var p := path[..i + 1];
    if i > 0 {
      var m := root[path[0]].entries;
      assert path[..i][1..] == path[1..][..i - 1] && p[1..] == path[1..][..i] && path[..i][0] == path[0];
      if i > 1 { assert Get(root, path[..i]) == Get(m, path[1..][..i - 1]); }
      InsertKeepsPut(m, path[1..], i - 1, value);
      var r := Put(root, p, Obj(map[]));
      assert r[path[0]] == Obj(Put(m, p[1..], Obj(map[])));
      if i > 1 { assert Get(r, path[..i]) == Get(r[path[0]].entries, path[1..][..i - 1]); }
    }
  }

  lemma {:induction false} InsideNext(root: map<string, Json>, path: Path, i: nat)
    requires i < |path| && Inside(root, path[..i]).Some? && path[i] in Inside(root, path[..i]).value
    ensures Get(root, path[..i + 1]) == Some(Inside(root, path[..i]).value[path[i]])
    decreases i
  {
    if i > 0 {
      var m := root[path[0]].entries;
      assert path[..i][1..] == path[1..][..i - 1] && path[..i + 1][1..] == path[1..][..i];
      if i > 1 { assert Get(root, path[..i]) == Get(m, path[1..][..i - 1]); }
      InsideNext(m, path[1..], i - 1);
    }
  }

  lemma PathRest(path: Path)
    ensures path[0..] == path
  {
  }

  /** These are the missing paths that start with one of the keys, once each. */
  ghost predicate Lists(paths: seq<Path>, existing: map<string, Json>, defaults: map<string, Json>, keys: set<string>) {
    && (forall p :: p in paths <==> Missing(existing, defaults, p) && p[0] in keys)
    && (forall i, j :: 0 <= i < j < |paths| ==> paths[i] != paths[j])
  }

  /** merge_missing_keys on one object, in any order of keys: the object it leaves and the paths it inserts. */
  method Repair(existing: map<string, Json>, defaults: map<string, Json>)
    returns (result: map<string, Json>, inserted: seq<Path>)
    ensures result == DeepMerge(defaults, existing)
    ensures Lists(inserted, existing, defaults, defaults.Keys)
    decreases Obj(defaults)
  {
    hide Missing, Lists, Prefixed;
    result, inserted := existing, [];
    var todo := defaults.Keys;
    ListsNone(existing, defaults);
    while todo != {}
      invariant todo <= defaults.Keys
      invariant result.Keys == existing.Keys + (defaults.Keys - todo)
      invariant forall k :: k in result ==>
                  result[k] == if k in defaults.Keys - todo then DeepMerge(defaults, existing)[k] else existing[k]
      invariant Lists(inserted, existing, defaults, defaults.Keys - todo)
      decreases todo
    {
      var k :| k in todo;
      var more: seq<Path> := [];
      if k !in result {
        result := result[k := defaults[k]];
        more := [[k]];
        ListsAbsent(existing, defaults, k);
      } else if defaults[k].Obj? && result[k].Obj? {
        var nested, paths := Repair(result[k].entries, defaults[k].entries);
        result := result[k := Obj(nested)];
        more := Prefixed(k, paths);
        ListsNested(existing, defaults, k, paths);
      } else {
        ListsNothing(existing, defaults, k);
      }
      ListsMore(inserted, more, existing, defaults, defaults.Keys - todo, k);
      inserted := inserted + more;
      assert defaults.Keys - todo + {k} == defaults.Keys - (todo - {k});
      todo := todo - {k};
    }
    assert defaults.Keys - todo == defaults.Keys;
    assert result.Keys == DeepMerge(defaults, existing).Keys;
  }

  function Prefixed(k: string, paths: seq<Path>): (r: seq<Path>)
    ensures |r| == |paths| && forall i :: 0 <= i < |r| ==> r[i] == [k] + paths[i]
  {
    seq(|paths|, i requires 0 <= i < |paths| => [k] + paths[i])
  }

  lemma ListsNone(existing: map<string, Json>, defaults: map<string, Json>)
    ensures Lists([], existing, defaults, defaults.Keys - defaults.Keys)
  {
  }

  lemma ListsAbsent(existing: map<string, Json>, defaults: map<string, Json>, k: string)
    requires k in defaults && k !in existing
    ensures Lists([[k]], existing, defaults, {k})
  {
    forall p | Missing(existing, defaults, p) && p[0] == k
      ensures p in [[k]]
    {
      assert p == [k] && [[k]][0] == p;
    }
  }

  lemma ListsNothing(existing: map<string, Json>, defaults: map<string, Json>, k: string)
    requires k in existing && (k in defaults ==> !defaults[k].Obj? || !existing[k].Obj?)
    ensures Lists([], existing, defaults, {k})
  {
  }

  lemma ListsNested(existing: map<string, Json>, defaults: map<string, Json>, k: string, paths: seq<Path>)
    requires k in defaults && k in existing && defaults[k].Obj? && existing[k].Obj?
    requires Lists(paths, existing[k].entries, defaults[k].entries, defaults[k].entries.Keys)
    ensures Lists(Prefixed(k, paths), existing, defaults, {k})
  {
    var more := Prefixed(k, paths);
    forall i, j | 0 <= i < j < |paths|
      ensures more[i] != more[j]
    {
      assert more[i][1..] == paths[i] && more[j][1..] == paths[j];
    }
    forall p | p in more
      ensures Missing(existing, defaults, p) && p[0] == k
    {
      var i :| 0 <= i < |more| && more[i] == p;
      assert p[1..] == paths[i] && paths[i] in paths;
    }
    forall p | Missing(existing, defaults, p) && p[0] == k
      ensures p in more
    {
      assert p[1..] in paths;
      var i :| 0 <= i < |paths| && paths[i] == p[1..];
      assert p == [k] + p[1..] == more[i];
    }
  }

  lemma ListsMore(a: seq<Path>, b: seq<Path>, existing: map<string, Json>, defaults: map<string, Json>,
                  keys: set<string>, k: string)
    requires Lists(a, existing, defaults, keys) && Lists(b, existing, defaults, {k}) && k !in keys
    ensures Lists(a + b, existing, defaults, keys + {k})
  {
    hide Missing;
    forall i, j | 0 <= i < j < |a + b|
      ensures (a + b)[i] != (a + b)[j]
    {
      if i < |a| <= j { assert a[i] in a && b[j - |a|] in b; }
    }
  }

  /** A second run finds nothing to insert. */
  lemma {:induction false} RepairedHasAll(existing: map<string, Json>, defaults: map<string, Json>, path: Path)
    ensures !Missing(DeepMerge(defaults, existing), defaults, path)
    decreases |path|
  {
    if path != [] && path[0] in defaults && path[0] in existing && existing[path[0]].Obj? && defaults[path[0]].Obj? {
      RepairedHasAll(existing[path[0]].entries, defaults[path[0]].entries, path[1..]);
    } else if path != [] && path[0] in defaults && path[0] !in existing {
      CompleteHasAll(defaults, path);
    }
  }

  lemma {:induction false} CompleteHasAll(defaults: map<string, Json>, path: Path)
    ensures !Missing(defaults, defaults, path)
    decreases |path|
  {
    if path != [] && path[0] in defaults && defaults[path[0]].Obj? {
      CompleteHasAll(defaults[path[0]].entries, path[1..]);
    }
  }

  // ---- dot-path edits ----

  function Put(root: map<string, Json>, path: Path, value: Json): map<string, Json>
    requires path != []
    decreases |path|
  {
    if |path| == 1 then root[path[0] := value]
    else
      var below := if path[0] in root && root[path[0]].Obj? then root[path[0]].entries else map[];
      root[path[0] := Obj(Put(below, path[1..], value))]
  }

  function Remove(root: map<string, Json>, path: Path): map<string, Json>
    requires path != [] && Get(root, path).Some?
    decreases |path|
  {
    if |path| == 1 then root - {path[0]}
    else root[path[0] := Obj(Remove(root[path[0]].entries, path[1..]))]
  }

  /** Neither path leads through the other. */
  predicate Unrelated(p: Path, q: Path) {
    !(p <= q) && !(q <= p)
  }

  /** A set value is got back, setting again replaces it, setting what is there changes nothing. */
  lemma {:induction false} PutLaws(root: map<string, Json>, path: Path, value: Json, other: Json)
    requires path != []
    ensures Get(Put(root, path, value), path) == Some(value)
    ensures Put(Put(root, path, value), path, other) == Put(root, path, other)
    ensures Get(root, path) == Some(value) ==> Put(root, path, value) == root
    decreases |path|
  {
    if |path| > 1 {
      var below := if path[0] in root && root[path[0]].Obj? then root[path[0]].entries else map[];
      PutLaws(below, path[1..], value, other);
    }
  }

  /** What is not on the path stays, when the edit is not refused. */
  lemma {:induction false} PutElsewhere(root: map<string, Json>, path: Path, value: Json, q: Path)
    requires path != [] && q != [] && Unrelated(path, q) && !Blocked(root, path)
    ensures Get(Put(root, path, value), q) == Get(root, q)
    decreases |path|
  {
    if path[0] == q[0] {
      UnrelatedRest(path, q);
      var below := if path[0] in root && root[path[0]].Obj? then root[path[0]].entries else map[];
      PutElsewhere(below, path[1..], value, q[1..]);
    }
  }

  lemma PrefixOne(p: Path, q: Path)
    requires |p| == 1 && q != [] && p[0] == q[0]
    ensures p <= q
  {
  }

  lemma UnrelatedRest(p: Path, q: Path)
    requires p != [] && q != [] && Unrelated(p, q) && p[0] == q[0]
    ensures |p| > 1 && |q| > 1 && Unrelated(p[1..], q[1..])
  {
    assert p == [p[0]] + p[1..] && q == [q[0]] + q[1..];
    if |p| == 1 { PrefixOne(p, q); }
    if |q| == 1 { PrefixOne(q, p); }
  }

  /** Unsetting removes the value, leaves everything off the path alone, and is undone by setting the value back. */
  lemma {:induction false} RemoveLaws(root: map<string, Json>, path: Path, q: Path)
    requires path != [] && q != [] && Get(root, path).Some?
    ensures Get(Remove(root, path), path).None?
    ensures Unrelated(path, q) ==> Get(Remove(root, path), q) == Get(root, q)
    ensures Put(Remove(root, path), path, Get(root, path).value) == root
    decreases |path|
  {
    if |path| > 1 {
      if Unrelated(path, q) && path[0] == q[0] {
        UnrelatedRest(path, q);
        RemoveLaws(root[path[0]].entries, path[1..], q[1..]);
      } else {
        RemoveLaws(root[path[0]].entries, path[1..], path[1..]);
      }
    }
  }
}
