/**
 * Creating a folder hierarchy: one POST per folder of the requested
 * structure, depth first and one after the other, each child posted under
 * the id the server has just given its parent. The handlers decide where
 * the top folder goes: under the given parent folder when its id is truthy,
 * at the project's root otherwise.
 */
module FolderCreation {
  import opened Wrappers
  import opened JsValues
  import opened SquashStore
  import FolderTree
  import Deletion

  /**
   * A folder to create and its subfolders. An absent `children` list and an
   * empty one behave alike (no recursion, `children: []` in the result), so
   * both are the empty sequence here.
   */
  datatype FolderSpec = FolderSpec(name: string, description: Option<string>, children: seq<FolderSpec>)

  /** The body of the POST: `_type`, name, description and the parent's `_type` and id. */
  datatype FolderPayload = FolderPayload(kind: string, name: string, description: Option<string>,
                                         parentKind: string, parentId: int)

  /** What the creation returns for a folder: its name, new id and created subfolders. */
  datatype CreatedFolder = CreatedFolder(name: string, id: int, children: seq<CreatedFolder>)

  /** The POSTs a creation issues and its result (None: a POST failed and the creation threw). */
  datatype CreationRun = CreationRun(posts: seq<FolderPayload>, tree: Option<CreatedFolder>)

  datatype ChildrenRun = ChildrenRun(posts: seq<FolderPayload>, trees: Option<seq<CreatedFolder>>)

  /**
   * `createFolderRecursive` with the next POST landing at log position pos
   * and the next fresh id being nextId: post the folder; if that fails, stop;
   * otherwise create the children under the new id.
   */
  function Create(spec: FolderSpec, parentKind: string, parentId: int, folderType: string,
                  nextId: int, pos: nat, failing: set<nat>): CreationRun
    decreases spec
  {
    var payload := FolderPayload(folderType, spec.name, spec.description, parentKind, parentId);
    if pos in failing then CreationRun([payload], None)
    else
      var rest := CreateAll(spec.children, folderType, nextId, nextId + 1, pos + 1, failing);
      CreationRun([payload] + rest.posts,
                  if rest.trees.Some? then Some(CreatedFolder(spec.name, nextId, rest.trees.value)) else None)
  }

  /**
   * The `for (const child of children)` loop under the folder with id
   * parentId: the children are created in order, each starting where the
   * previous one stopped, and the first failure ends the loop.
   */
  function CreateAll(kids: seq<FolderSpec>, folderType: string, parentId: int,
                     nextId: int, pos: nat, failing: set<nat>): ChildrenRun
    decreases kids
  {
    if kids == [] then ChildrenRun([], Some([]))
    else
      var prev := CreateAll(kids[..|kids| - 1], folderType, parentId, nextId, pos, failing);
      if prev.trees.None? then prev
      else
        var last := Create(kids[|kids| - 1], folderType, parentId, folderType,
                           nextId + |prev.posts|, pos + |prev.posts|, failing);
        ChildrenRun(prev.posts + last.posts,
                    if last.tree.Some? then Some(prev.trees.value + [last.tree.value]) else None)
  }

  /** The loop's run over one more child: the run over the others, then that child's creation if they all succeeded. */
  lemma CreateAllSnoc(init: seq<FolderSpec>, kid: FolderSpec, folderType: string, parentId: int,
                      nextId: int, pos: nat, failing: set<nat>, prev: ChildrenRun, last: CreationRun)
    requires prev == CreateAll(init, folderType, parentId, nextId, pos, failing)
    requires last == Create(kid, folderType, parentId, folderType, nextId + |prev.posts|, pos + |prev.posts|, failing)
    ensures CreateAll(init + [kid], folderType, parentId, nextId, pos, failing)
            == if prev.trees.None? then prev
               else ChildrenRun(prev.posts + last.posts,
                                if last.tree.Some? then Some(prev.trees.value + [last.tree.value]) else None)
  {
    var kids := init + [kid];
    assert kids[..|kids| - 1] == init && kids[|kids| - 1] == kid;
  }

  /** A folder whose POST succeeds: its payload, then its children's creation under the new id. */
  lemma CreateUnfold(spec: FolderSpec, parentKind: string, parentId: int, folderType: string,
                     nextId: int, pos: nat, failing: set<nat>)
    requires pos !in failing
    ensures var rest := CreateAll(spec.children, folderType, nextId, nextId + 1, pos + 1, failing);
            Create(spec, parentKind, parentId, folderType, nextId, pos, failing)
            == CreationRun([FolderPayload(folderType, spec.name, spec.description, parentKind, parentId)] + rest.posts,
                           if rest.trees.Some? then Some(CreatedFolder(spec.name, nextId, rest.trees.value)) else None)
  {
  }

  /** The loop has created kids[..i] under parentId, posting `posted` and returning `created`. */
  ghost predicate CreatedSoFar(kids: seq<FolderSpec>, i: nat, folderType: string, parentId: int, nextId: int,
                               pos: nat, failing: set<nat>, posted: seq<FolderPayload>, created: seq<CreatedFolder>)
  {
    i <= |kids| &&
    var run := CreateAll(kids[..i], folderType, parentId, nextId, pos, failing);
    run.posts == posted && run.trees == Some(created)
  }

  lemma CreatedNone(kids: seq<FolderSpec>, folderType: string, parentId: int, nextId: int, pos: nat, failing: set<nat>)
    ensures CreatedSoFar(kids, 0, folderType, parentId, nextId, pos, failing, [], [])
  {
    assert kids[..0] == [];
  }

  /**
   * One more child, created from where the loop stands: either the loop goes
   * on with one more created folder, or that child failed and the loop's
   * whole run ends there.
   */
  lemma CreatedNext(kids: seq<FolderSpec>, i: nat, folderType: string, parentId: int, nextId: int, pos: nat,
                    failing: set<nat>, posted: seq<FolderPayload>, created: seq<CreatedFolder>,
                    last: CreationRun)
    requires i < |kids| && CreatedSoFar(kids, i, folderType, parentId, nextId, pos, failing, posted, created)
    requires last == Create(kids[i], folderType, parentId, folderType, nextId + |posted|, pos + |posted|, failing)
    ensures last.tree.Some? ==>
              CreatedSoFar(kids, i + 1, folderType, parentId, nextId, pos, failing,
                           posted + last.posts, created + [last.tree.value])
    ensures last.tree.None? ==>
              CreateAll(kids, folderType, parentId, nextId, pos, failing) == ChildrenRun(posted + last.posts, None)
  {
    var prev := CreateAll(kids[..i], folderType, parentId, nextId, pos, failing);
    assert prev.posts == posted && prev.trees == Some(created);
    var next := kids[..i] + [kids[i]];
    assert kids[..i + 1] == next;
    CreateAllSnoc(kids[..i], kids[i], folderType, parentId, nextId, pos, failing, prev, last);
    var run := CreateAll(next, folderType, parentId, nextId, pos, failing);
    if last.tree.None? {
      assert run == ChildrenRun(posted + last.posts, None);
      CreateAllStops(kids, i + 1, folderType, parentId, nextId, pos, failing);
    } else {
      assert run == ChildrenRun(posted + last.posts, Some(created + [last.tree.value]));
    }
  }

  lemma CreatedAll(kids: seq<FolderSpec>, folderType: string, parentId: int, nextId: int, pos: nat,
                   failing: set<nat>, posted: seq<FolderPayload>, created: seq<CreatedFolder>)
    requires CreatedSoFar(kids, |kids|, folderType, parentId, nextId, pos, failing, posted, created)
    ensures CreateAll(kids, folderType, parentId, nextId, pos, failing) == ChildrenRun(posted, Some(created))
  {
    assert kids[..|kids|] == kids;
  }

  /** How many folders a structure holds: the folder itself and all its descendants. */
  function Size(spec: FolderSpec): (n: nat)
    ensures n >= 1
    decreases spec
  {
    1 + SizeAll(spec.children)
  }

  function SizeAll(kids: seq<FolderSpec>): nat
    decreases kids
  {
    if kids == [] then 0 else SizeAll(kids[..|kids| - 1]) + Size(kids[|kids| - 1])
  }

  /**
   * The outcome of a creation: when every POST succeeds there is one per
   * folder of the structure; otherwise the run stops right after its first
   * failing POST, having posted at most one request per folder.
   */
  lemma {:induction false} CreateOutcome(spec: FolderSpec, parentKind: string, parentId: int, folderType: string,
                                         nextId: int, pos: nat, failing: set<nat>)
    ensures var run := Create(spec, parentKind, parentId, folderType, nextId, pos, failing);
            && |run.posts| <= Size(spec)
            && (run.tree.Some? ==> |run.posts| == Size(spec) && AllOk(failing, pos, |run.posts|))
            && (run.tree.None? ==> AllOk(failing, pos, |run.posts| - 1) && pos + |run.posts| - 1 in failing)
    decreases spec, 1
  {
    if pos !in failing {
      CreateAllOutcome(spec.children, folderType, nextId, nextId + 1, pos + 1, failing);
    }
  }

  lemma {:induction false} CreateAllOutcome(kids: seq<FolderSpec>, folderType: string, parentId: int,
                                            nextId: int, pos: nat, failing: set<nat>)
    ensures var run := CreateAll(kids, folderType, parentId, nextId, pos, failing);
            && |run.posts| <= SizeAll(kids)
            && (run.trees.Some? ==> |run.posts| == SizeAll(kids) && AllOk(failing, pos, |run.posts|))
            && (run.trees.None? ==> |run.posts| >= 1 && AllOk(failing, pos, |run.posts| - 1)
                                    && pos + |run.posts| - 1 in failing)
    decreases kids, 0
  {
    if kids != [] {
      var prev := CreateAll(kids[..|kids| - 1], folderType, parentId, nextId, pos, failing);
      CreateAllOutcome(kids[..|kids| - 1], folderType, parentId, nextId, pos, failing);
      if prev.trees.Some? {
        CreateOutcome(kids[|kids| - 1], folderType, parentId, folderType,
                      nextId + |prev.posts|, pos + |prev.posts|, failing);
      }
    }
  }

  /** A loop that created every child posted once per folder of their structures. */
  lemma CreateAllCount(kids: seq<FolderSpec>, folderType: string, parentId: int, nextId: int, pos: nat, failing: set<nat>)
    ensures var run := CreateAll(kids, folderType, parentId, nextId, pos, failing);
            run.trees.Some? ==> |run.posts| == SizeAll(kids)
  {
    CreateAllOutcome(kids, folderType, parentId, nextId, pos, failing);
  }

  /** A creation succeeds exactly when none of the Size(spec) POSTs it would issue fails. */
  lemma CreateSucceedsIff(spec: FolderSpec, parentKind: string, parentId: int, folderType: string,
                          nextId: int, pos: nat, failing: set<nat>)
    ensures Create(spec, parentKind, parentId, folderType, nextId, pos, failing).tree.Some?
            <==> AllOk(failing, pos, Size(spec))
  {
    CreateOutcome(spec, parentKind, parentId, folderType, nextId, pos, failing);
  }

  /** The ids of a created tree in pre-order: the folder's own, then each child's subtree in turn. */
  function Ids(t: CreatedFolder): seq<int>
    decreases t
  {
    [t.id] + IdsAll(t.children)
  }

  function IdsAll(ts: seq<CreatedFolder>): seq<int>
    decreases ts
  {
    if ts == [] then [] else IdsAll(ts[..|ts| - 1]) + Ids(ts[|ts| - 1])
  }

  /** Trees numbered a .. a+n-1 followed by a tree numbered a+n .. a+n+m-1 are numbered a .. a+n+m-1. */
  lemma JoinIds(ts: seq<CreatedFolder>, t: CreatedFolder, a: int, k: nat, n: nat, m: nat)
    requires IdsAll(ts) == Range(a, n) && Ids(t) == Range(a + k, m) && k == n
    ensures IdsAll(ts + [t]) == Range(a, n + m)
  {
    var u := ts + [t];
    assert u[..|u| - 1] == ts && u[|u| - 1] == t;
    RangeAppend(a, n, m);
  }

  /** The consecutive integers a, a+1, ..., a+n-1. */
  function Range(a: int, n: nat): (r: seq<int>)
    ensures |r| == n && forall i :: 0 <= i < n ==> r[i] == a + i
  {
    seq(n, i => a + i)
  }

  lemma RangeAppend(a: int, n: nat, m: nat)
    ensures Range(a, n) + Range(a + n, m) == Range(a, n + m)
  {
    var both := Range(a, n) + Range(a + n, m);
    forall i | 0 <= i < n + m
      ensures both[i] == a + i
    {
      if i >= n {
        assert both[i] == Range(a + n, m)[i - n];
      }
    }
  }

  /**
   * The ids of a successful creation: the server's counter hands them out
   * in pre-order, so the folders get nextId, nextId+1, ... one each, with no
   * gap and no repeat.
   */
  lemma {:induction false} CreateIds(spec: FolderSpec, parentKind: string, parentId: int, folderType: string,
                                     nextId: int, pos: nat, failing: set<nat>)
    ensures var run := Create(spec, parentKind, parentId, folderType, nextId, pos, failing);
            run.tree.Some? ==> Ids(run.tree.value) == Range(nextId, Size(spec))
    decreases spec, 1
  {
    var run := Create(spec, parentKind, parentId, folderType, nextId, pos, failing);
    if run.tree.Some? {
      CreateAllIds(spec.children, folderType, nextId, nextId + 1, pos + 1, failing);
      RangeAppend(nextId, 1, SizeAll(spec.children));
    }
  }

  lemma {:induction false} CreateAllIds(kids: seq<FolderSpec>, folderType: string, parentId: int,
                                        nextId: int, pos: nat, failing: set<nat>)
    ensures var run := CreateAll(kids, folderType, parentId, nextId, pos, failing);
            run.trees.Some? ==> IdsAll(run.trees.value) == Range(nextId, SizeAll(kids))
    decreases kids, 0
  {
    var run := CreateAll(kids, folderType, parentId, nextId, pos, failing);
    if kids != [] && run.trees.Some? {
      var init, kid := kids[..|kids| - 1], kids[|kids| - 1];
      var prev := CreateAll(init, folderType, parentId, nextId, pos, failing);
      var last := Create(kid, folderType, parentId, folderType, nextId + |prev.posts|, pos + |prev.posts|, failing);
      assert run.trees == Some(prev.trees.value + [last.tree.value]);
      CreateAllIds(init, folderType, parentId, nextId, pos, failing);
      CreateAllCount(init, folderType, parentId, nextId, pos, failing);
      CreateIds(kid, folderType, parentId, folderType, nextId + |prev.posts|, pos + |prev.posts|, failing);
      JoinIds(prev.trees.value, last.tree.value, nextId, |prev.posts|, SizeAll(init), Size(kid));
      assert SizeAll(kids) == SizeAll(init) + Size(kid);
    } else if kids == [] {
      assert Range(nextId, 0) == [];
    }
  }

  /**
   * The requests of a creation, read off the created tree: each folder's
   * payload in pre-order, naming its own name and description and its
   * parent's type and id, the top folder under the supplied parent.
   */
  function Payloads(spec: FolderSpec, t: CreatedFolder, parentKind: string, parentId: int,
                    folderType: string): seq<FolderPayload>
    decreases spec
  {
    [FolderPayload(folderType, spec.name, spec.description, parentKind, parentId)]
    + PayloadsAll(spec.children, t.children, folderType, t.id)
  }

  function PayloadsAll(kids: seq<FolderSpec>, ts: seq<CreatedFolder>, folderType: string,
                       parentId: int): seq<FolderPayload>
    decreases kids
  {
    if kids == [] || ts == [] then []
    else PayloadsAll(kids[..|kids| - 1], ts[..|ts| - 1], folderType, parentId)
         + Payloads(kids[|kids| - 1], ts[|ts| - 1], folderType, parentId, folderType)
  }

  /** A structure and a created tree with the same names and the same shape. */
  predicate SameShape(spec: FolderSpec, t: CreatedFolder)
    decreases spec
  {
    spec.name == t.name && SameShapeAll(spec.children, t.children)
  }

  predicate SameShapeAll(kids: seq<FolderSpec>, ts: seq<CreatedFolder>)
    decreases kids
  {
    |kids| == |ts| &&
    (kids != [] ==> SameShapeAll(kids[..|kids| - 1], ts[..|ts| - 1]) && SameShape(kids[|kids| - 1], ts[|ts| - 1]))
  }

  /** A successful creation returns the requested structure: same names, same nesting, children in order. */
  lemma {:induction false} CreateShape(spec: FolderSpec, parentKind: string, parentId: int, folderType: string,
                                       nextId: int, pos: nat, failing: set<nat>)
    ensures var run := Create(spec, parentKind, parentId, folderType, nextId, pos, failing);
            run.tree.Some? ==> SameShape(spec, run.tree.value) && run.tree.value.id == nextId
    decreases spec, 1
  {
    var run := Create(spec, parentKind, parentId, folderType, nextId, pos, failing);
    if run.tree.Some? {
      CreateAllShape(spec.children, folderType, nextId, nextId + 1, pos + 1, failing);
    }
  }

  lemma {:induction false} CreateAllShape(kids: seq<FolderSpec>, folderType: string, parentId: int,
                                          nextId: int, pos: nat, failing: set<nat>)
    ensures var run := CreateAll(kids, folderType, parentId, nextId, pos, failing);
            run.trees.Some? ==> SameShapeAll(kids, run.trees.value)
    decreases kids, 0
  {
    var run := CreateAll(kids, folderType, parentId, nextId, pos, failing);
    if kids != [] && run.trees.Some? {
      var init := kids[..|kids| - 1];
      var prev := CreateAll(init, folderType, parentId, nextId, pos, failing);
      var last := Create(kids[|kids| - 1], folderType, parentId, folderType,
                         nextId + |prev.posts|, pos + |prev.posts|, failing);
      CreateAllShape(init, folderType, parentId, nextId, pos, failing);
      CreateShape(kids[|kids| - 1], folderType, parentId, folderType, nextId + |prev.posts|, pos + |prev.posts|, failing);
      assert kids == init + [kids[|kids| - 1]];
      ResultSnoc(init, kids[|kids| - 1], prev.trees.value, last.tree.value, folderType, parentId);
    }
  }

  /**
   * A successful creation posts exactly the payloads read off the tree it
   * returns: pre-order, each folder under its parent's new id.
   */
  lemma {:induction false} CreatePayloads(spec: FolderSpec, parentKind: string, parentId: int, folderType: string,
                                          nextId: int, pos: nat, failing: set<nat>)
    ensures var run := Create(spec, parentKind, parentId, folderType, nextId, pos, failing);
            run.tree.Some? ==> run.posts == Payloads(spec, run.tree.value, parentKind, parentId, folderType)
    decreases spec, 1
  {
    var run := Create(spec, parentKind, parentId, folderType, nextId, pos, failing);
    if run.tree.Some? {
      CreateAllPayloads(spec.children, folderType, nextId, nextId + 1, pos + 1, failing);
    }
  }

  lemma {:induction false} CreateAllPayloads(kids: seq<FolderSpec>, folderType: string, parentId: int,
                                             nextId: int, pos: nat, failing: set<nat>)
    ensures var run := CreateAll(kids, folderType, parentId, nextId, pos, failing);
            run.trees.Some? ==> run.posts == PayloadsAll(kids, run.trees.value, folderType, parentId)
    decreases kids, 0
  {
    var run := CreateAll(kids, folderType, parentId, nextId, pos, failing);
    if kids != [] && run.trees.Some? {
      var init := kids[..|kids| - 1];
      var prev := CreateAll(init, folderType, parentId, nextId, pos, failing);
      var last := Create(kids[|kids| - 1], folderType, parentId, folderType,
                         nextId + |prev.posts|, pos + |prev.posts|, failing);
      CreateAllPayloads(init, folderType, parentId, nextId, pos, failing);
      CreatePayloads(kids[|kids| - 1], folderType, parentId, folderType, nextId + |prev.posts|, pos + |prev.posts|, failing);
      assert kids == init + [kids[|kids| - 1]];
      ResultSnoc(init, kids[|kids| - 1], prev.trees.value, last.tree.value, folderType, parentId);
    }
  }

  /** A creation none of whose POSTs fails is the failure-free creation. */
  lemma {:induction false} CreateUnaffected(spec: FolderSpec, parentKind: string, parentId: int, folderType: string,
                                            nextId: int, pos: nat, failing: set<nat>)
    ensures var run := Create(spec, parentKind, parentId, folderType, nextId, pos, failing);
            run.tree.Some? ==> run == Create(spec, parentKind, parentId, folderType, nextId, pos, {})
    decreases spec, 1
  {
    var run := Create(spec, parentKind, parentId, folderType, nextId, pos, failing);
    if run.tree.Some? {
      CreateAllUnaffected(spec.children, folderType, nextId, nextId + 1, pos + 1, failing);
    }
  }

  lemma {:induction false} CreateAllUnaffected(kids: seq<FolderSpec>, folderType: string, parentId: int,
                                               nextId: int, pos: nat, failing: set<nat>)
    ensures var run := CreateAll(kids, folderType, parentId, nextId, pos, failing);
            run.trees.Some? ==> run == CreateAll(kids, folderType, parentId, nextId, pos, {})
    decreases kids, 0
  {
    var run := CreateAll(kids, folderType, parentId, nextId, pos, failing);
    if kids != [] && run.trees.Some? {
      var init := kids[..|kids| - 1];
      var prev := CreateAll(init, folderType, parentId, nextId, pos, failing);
      CreateAllUnaffected(init, folderType, parentId, nextId, pos, failing);
      CreateUnaffected(kids[|kids| - 1], folderType, parentId, folderType, nextId + |prev.posts|, pos + |prev.posts|, failing);
    }
  }

  /** a is an initial part of b. */
  predicate PrefixOf(a: seq<FolderPayload>, b: seq<FolderPayload>) {
    |a| <= |b| && a == b[..|a|]
  }

  /**
   * A failing POST only cuts the creation short: the requests issued are a
   * prefix of those the failure-free creation issues, in the same order and
   * with the same payloads.
   */
  lemma {:induction false} CreatePrefix(spec: FolderSpec, parentKind: string, parentId: int, folderType: string,
                                        nextId: int, pos: nat, failing: set<nat>)
    ensures PrefixOf(Create(spec, parentKind, parentId, folderType, nextId, pos, failing).posts,
                     Create(spec, parentKind, parentId, folderType, nextId, pos, {}).posts)
    decreases spec, 1
  {
    if pos !in failing {
      CreateAllPrefix(spec.children, folderType, nextId, nextId + 1, pos + 1, failing);
      var rest := CreateAll(spec.children, folderType, nextId, nextId + 1, pos + 1, failing);
      var restFull := CreateAll(spec.children, folderType, nextId, nextId + 1, pos + 1, {});
      PrefixExtend([FolderPayload(folderType, spec.name, spec.description, parentKind, parentId)],
                   rest.posts, restFull.posts);
    }
  }

  lemma {:induction false} CreateAllPrefix(kids: seq<FolderSpec>, folderType: string, parentId: int,
                                           nextId: int, pos: nat, failing: set<nat>)
    ensures PrefixOf(CreateAll(kids, folderType, parentId, nextId, pos, failing).posts,
                     CreateAll(kids, folderType, parentId, nextId, pos, {}).posts)
    decreases kids, 0
  {
    if kids != [] {
      var init := kids[..|kids| - 1];
      var prev := CreateAll(init, folderType, parentId, nextId, pos, failing);
      CreateAllPrefix(init, folderType, parentId, nextId, pos, failing);
      if prev.trees.Some? {
        CreateAllUnaffected(init, folderType, parentId, nextId, pos, failing);
        CreatePrefix(kids[|kids| - 1], folderType, parentId, folderType, nextId + |prev.posts|, pos + |prev.posts|, failing);
        PrefixAfterSuccess(kids, folderType, parentId, nextId, pos, failing);
      } else {
        PrefixAfterFailure(kids, folderType, parentId, nextId, pos, failing);
      }
    }
  }

  /** The prefix step when the earlier children all succeeded: the last child's run is a prefix of its failure-free one. */
  lemma PrefixAfterSuccess(kids: seq<FolderSpec>, folderType: string, parentId: int,
                           nextId: int, pos: nat, failing: set<nat>)
    requires kids != []
    requires var prev := CreateAll(kids[..|kids| - 1], folderType, parentId, nextId, pos, failing);
             && prev.trees.Some?
             && prev == CreateAll(kids[..|kids| - 1], folderType, parentId, nextId, pos, {})
             && PrefixOf(Create(kids[|kids| - 1], folderType, parentId, folderType,
                                nextId + |prev.posts|, pos + |prev.posts|, failing).posts,
                         Create(kids[|kids| - 1], folderType, parentId, folderType,
                                nextId + |prev.posts|, pos + |prev.posts|, {}).posts)
    ensures PrefixOf(CreateAll(kids, folderType, parentId, nextId, pos, failing).posts,
                     CreateAll(kids, folderType, parentId, nextId, pos, {}).posts)
  {
    var prev := CreateAll(kids[..|kids| - 1], folderType, parentId, nextId, pos, failing);
    var last := Create(kids[|kids| - 1], folderType, parentId, folderType,
                       nextId + |prev.posts|, pos + |prev.posts|, failing);
    var lastFull := Create(kids[|kids| - 1], folderType, parentId, folderType,
                           nextId + |prev.posts|, pos + |prev.posts|, {});
    PrefixExtend(prev.posts, last.posts, lastFull.posts);
  }

  /** The prefix step when an earlier child failed: the loop issued nothing more. */
  lemma PrefixAfterFailure(kids: seq<FolderSpec>, folderType: string, parentId: int,
                           nextId: int, pos: nat, failing: set<nat>)
    requires kids != []
    requires CreateAll(kids[..|kids| - 1], folderType, parentId, nextId, pos, failing).trees.None?
    requires PrefixOf(CreateAll(kids[..|kids| - 1], folderType, parentId, nextId, pos, failing).posts,
                      CreateAll(kids[..|kids| - 1], folderType, parentId, nextId, pos, {}).posts)
    ensures PrefixOf(CreateAll(kids, folderType, parentId, nextId, pos, failing).posts,
                     CreateAll(kids, folderType, parentId, nextId, pos, {}).posts)
  {
    var prev := CreateAll(kids[..|kids| - 1], folderType, parentId, nextId, pos, failing);
    var fullPrev := CreateAll(kids[..|kids| - 1], folderType, parentId, nextId, pos, {});
    CreateAllOutcome(kids[..|kids| - 1], folderType, parentId, nextId, pos, {});
    var lastFull := Create(kids[|kids| - 1], folderType, parentId, folderType,
                           nextId + |fullPrev.posts|, pos + |fullPrev.posts|, {});
    PrefixOfLonger(prev.posts, fullPrev.posts, lastFull.posts);
  }

  lemma PrefixExtend(a: seq<FolderPayload>, b: seq<FolderPayload>, c: seq<FolderPayload>)
    requires PrefixOf(b, c)
    ensures PrefixOf(a + b, a + c)
  {
  }

  lemma PrefixOfLonger(a: seq<FolderPayload>, b: seq<FolderPayload>, c: seq<FolderPayload>)
    requires PrefixOf(a, b)
    ensures PrefixOf(a, b + c)
  {
  }

  lemma ResultSnoc(init: seq<FolderSpec>, k: FolderSpec, ts: seq<CreatedFolder>, t: CreatedFolder,
                   folderType: string, parentId: int)
    ensures SameShapeAll(init + [k], ts + [t]) <==> SameShapeAll(init, ts) && SameShape(k, t)
    ensures PayloadsAll(init + [k], ts + [t], folderType, parentId)
            == PayloadsAll(init, ts, folderType, parentId) + Payloads(k, t, folderType, parentId, folderType)
  {
    assert (init + [k])[..|init|] == init;
    assert (ts + [t])[..|ts|] == ts;
  }

  /** How many ids a run took: one per POST, except a failed last one. */
  function Assigned(posts: seq<FolderPayload>, ok: bool): int {
    if ok then |posts| else |posts| - 1
  }

  /** Once the loop has failed, the remaining children are never posted. */
  lemma {:induction false} CreateAllStops(kids: seq<FolderSpec>, i: nat, folderType: string, parentId: int,
                                          nextId: int, pos: nat, failing: set<nat>)
    requires i <= |kids|
    requires CreateAll(kids[..i], folderType, parentId, nextId, pos, failing).trees.None?
    ensures CreateAll(kids, folderType, parentId, nextId, pos, failing)
            == CreateAll(kids[..i], folderType, parentId, nextId, pos, failing)
    decreases |kids| - i
  {
    if i < |kids| {
      var longer := kids[..i + 1];
      assert longer[..|longer| - 1] == kids[..i];
      CreateAllStops(kids, i + 1, folderType, parentId, nextId, pos, failing);
    } else {
      assert kids[..i] == kids;
    }
  }

  /**
   * `createFolderRecursive`: POST the folder, then (when there are
   * children) create each child in order under the new id, and return the
   * name, the new id and the created children. A failing POST throws, which
   * ends every enclosing creation as well.
   */
  method CreateFolderRecursive(store: Store<FolderPayload>, name: string, description: Option<string>,
                               parentId: int, parentType: string, folderType: string,
                               endpoint: string, children: seq<FolderSpec>)
    returns (r: Option<CreatedFolder>)
    modifies store
    ensures var run := Create(FolderSpec(name, description, children), parentType, parentId, folderType,
                              old(store.nextId), |old(store.log)|, store.failing);
            && store.log == old(store.log) + Posts(endpoint, run.posts)
            && r == run.tree
            && store.nextId == old(store.nextId) + Assigned(run.posts, run.tree.Some?)
    decreases children, 1
  {
    ghost var pos := |store.log|;
    var payload := FolderPayload(folderType, name, description, parentType, parentId);
    var response := store.Post(endpoint, payload);
    if response.None? {
      return None;
    }
    var newId := response.value.id;
    assert Posts(endpoint, [payload]) == [Request(POST, endpoint, Some(payload))];
    CreateUnfold(FolderSpec(name, description, children), parentType, parentId, folderType, newId, pos, store.failing);
    ghost var rest := CreateAll(children, folderType, newId, newId + 1, pos + 1, store.failing);
    var created: Option<seq<CreatedFolder>> := Some([]);
    if |children| > 0 {
      created := CreateChildren(store, children, newId, folderType, endpoint);
    }
    assert created == rest.trees;
    assert store.log == old(store.log) + Posts(endpoint, [payload]) + Posts(endpoint, rest.posts);
    PostsAppend(old(store.log), endpoint, [payload], rest.posts);
    // a failure among the children propagates out of this folder's creation
    r := if created.Some? then Some(CreatedFolder(name, newId, created.value)) else None;
  }

  /** The `for (const child of children)` loop of `createFolderRecursive`, under the folder with id parentId. */
  method CreateChildren(store: Store<FolderPayload>, children: seq<FolderSpec>, parentId: int,
                        folderType: string, endpoint: string)
    returns (r: Option<seq<CreatedFolder>>)
    modifies store
    ensures var run := CreateAll(children, folderType, parentId, old(store.nextId), |old(store.log)|, store.failing);
            && store.log == old(store.log) + Posts(endpoint, run.posts)
            && r == run.trees
            && store.nextId == old(store.nextId) + Assigned(run.posts, run.trees.Some?)
    decreases children, 0
  {
    ghost var pos, firstId := |store.log|, store.nextId;
    var childIds: seq<CreatedFolder> := [];
    ghost var posted: seq<FolderPayload> := [];
    CreatedNone(children, folderType, parentId, firstId, pos, store.failing);
    var i := 0;
    while i < |children|
      invariant CreatedSoFar(children, i, folderType, parentId, firstId, pos, store.failing, posted, childIds)
      invariant store.log == old(store.log) + Posts(endpoint, posted)
      invariant store.nextId == firstId + |posted|
    {
      ghost var logBefore, idBefore := store.log, store.nextId;
      var child := children[i];
      var c := CreateFolderRecursive(store, child.name, child.description, parentId, folderType,
                                     folderType, endpoint, child.children);
      ghost var last := Create(child, folderType, parentId, folderType, idBefore, |logBefore|, store.failing);
      CreatedNext(children, i, folderType, parentId, firstId, pos, store.failing, posted, childIds, last);
      PostsAppend(old(store.log), endpoint, posted, last.posts);
      posted := posted + last.posts;
      if c.None? {
        return None;
      }
      childIds := childIds + [c.value];
      i := i + 1;
    }
    CreatedAll(children, folderType, parentId, firstId, pos, store.failing, posted, childIds);
    r := Some(childIds);
  }

  /** `args.parent_folder_id || args.project_id`: a missing or zero folder id falls back to the project. */
  function ParentIdOf(projectId: int, parentFolderId: Option<int>): int {
    if TruthyId(parentFolderId) then parentFolderId.value else projectId
  }

  /** `args.parent_folder_id ? "<kind>-folder" : "project"`. */
  function ParentTypeOf(kind: FolderTree.FolderKind, parentFolderId: Option<int>): string {
    if TruthyId(parentFolderId) then kind.TypeName() else "project"
  }

  /**
   * The two expressions test the same truthiness, so the top folder goes
   * either under the project itself or under the given (non-zero) folder
   * with that folder's type, never a mix of the two.
   */
  lemma ParentResolution(kind: FolderTree.FolderKind, projectId: int, parentFolderId: Option<int>)
    ensures ParentTypeOf(kind, parentFolderId) == "project" ==> ParentIdOf(projectId, parentFolderId) == projectId
    ensures ParentTypeOf(kind, parentFolderId) != "project" ==>
              && ParentTypeOf(kind, parentFolderId) == kind.TypeName()
              && parentFolderId == Some(ParentIdOf(projectId, parentFolderId))
              && ParentIdOf(projectId, parentFolderId) != 0
    ensures parentFolderId == Some(0) || parentFolderId == None ==>
              ParentTypeOf(kind, parentFolderId) == "project"
  {
    match kind
    case RequirementFolder =>
    case TestCaseFolder =>
    case CampaignFolder =>
  }

  /**
   * The `create_requirement_folders`, `create_test_case_folders` and
   * `create_campaign_folders` handlers: resolve the parent, then create the
   * structure under the kind's resource.
   */
  method CreateFoldersHandler(store: Store<FolderPayload>, kind: FolderTree.FolderKind, projectId: int,
                              name: string, description: Option<string>, parentFolderId: Option<int>,
                              children: seq<FolderSpec>)
    returns (r: Option<CreatedFolder>)
    modifies store
    ensures var run := Create(FolderSpec(name, description, children),
                              ParentTypeOf(kind, parentFolderId), ParentIdOf(projectId, parentFolderId),
                              kind.TypeName(), old(store.nextId), |old(store.log)|, store.failing);
            && store.log == old(store.log) + Posts(kind.Resource(), run.posts)
            && r == run.tree
            && store.nextId == old(store.nextId) + Assigned(run.posts, run.tree.Some?)
  {
    var parentId := if TruthyId(parentFolderId) then parentFolderId.value else projectId;
    var parentType := if TruthyId(parentFolderId) then kind.TypeName() else "project";
    r := CreateFolderRecursive(store, name, description, parentId, parentType, kind.TypeName(),
                               kind.Resource(), children);
  }

  /** How the delete messages name a folder of each kind. */
  function Label(kind: FolderTree.FolderKind): string {
    match kind
    case RequirementFolder => "Requirement folder"
    case TestCaseFolder => "Test case folder"
    case CampaignFolder => "Campaign folder"
  }

  /**
   * The `delete_<kind>_folder` handlers: one DELETE at `<kind>-folders/<id>`,
   * and the confirmation message unless it fails.
   */
  method DeleteFolderHandler<P>(store: Store<P>, kind: FolderTree.FolderKind, folderId: int)
    returns (r: Option<string>)
    modifies store`log
    ensures store.log == old(store.log) + [Request(DELETE, kind.Resource() + "/" + IntToString(folderId), None)]
    ensures r == if |old(store.log)| in store.failing then None
                 else Some(Label(kind) + " " + IntToString(folderId) + " deleted successfully")
  {
    r := Deletion.DeleteById(store, kind.Resource(), Label(kind), folderId);
  }
}
