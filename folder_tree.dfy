/**
 * Reading a project's folder tree (requirement, test-case or campaign
 * folders). The tree the server returns mixes folder kinds and is not
 * trusted, so the adapter
 *   1. flattens it into the ids of the folders of the requested kind,
 *   2. fetches each folder's details and projects them onto a flat record
 *      that names the parent folder only when the parent is a folder of the
 *      same kind, and
 *   3. rebuilds the forest from those records: an id -> node map, then one
 *      pass that appends each node to its parent's children, or to the roots
 *      when it has no parent or the parent is not among the records.
 *
 * The rebuilt forest is an arena: node k is the node created for record k,
 * `roots` and `children[k]` list node positions. `Forest` reads the arena
 * as nested folders when the parent links have no cycle.
 */
module FolderTree {
  import opened Wrappers
  import opened JsValues
  import opened SquashStore

  // ---------------------------------------------------------------------
  // The raw tree and its flattening
  // ---------------------------------------------------------------------

  /** A node of the raw tree: its `_type`, id, name and children (of any kind). */
  datatype RawFolder = RawFolder(kind: string, id: int, name: string, children: seq<RawFolder>)

  /** One project of the `<resource>/tree/<projectId>` answer. */
  datatype ProjectTree = ProjectTree(kind: string, id: int, name: string, folders: seq<RawFolder>)

  /** The three folder hierarchies the handlers serve. */
  datatype FolderKind = RequirementFolder | TestCaseFolder | CampaignFolder {
    /** The `_type` of a folder of this kind. */
    function TypeName(): string {
      match this
      case RequirementFolder => "requirement-folder"
      case TestCaseFolder => "test-case-folder"
      case CampaignFolder => "campaign-folder"
    }

    /** The REST resource the folders of this kind live under. */
    function Resource(): string {
      match this
      case RequirementFolder => "requirement-folders"
      case TestCaseFolder => "test-case-folders"
      case CampaignFolder => "campaign-folders"
    }
  }

  /**
   * The inner `flatten`: the node's id when it has the kind, then its
   * children's ids; at most one id per node of the subtree.
   */
  function Flatten(f: RawFolder, kind: string): (r: seq<int>)
    ensures |r| <= |PreOrder(f)|
    decreases f
  {
    (if f.kind == kind then [f.id] else []) + FlattenAll(f.children, kind)
  }

  /** `folders.flatMap(flatten)`: at most one id per node of the forest. */
  function FlattenAll(fs: seq<RawFolder>, kind: string): (r: seq<int>)
    ensures |r| <= |PreOrderAll(fs)|
    decreases fs
  {
    if fs == [] then [] else Flatten(fs[0], kind) + FlattenAll(fs[1..], kind)
  }

  /** `data.flatMap(project => project.folders.flatMap(flatten))`: at most one id per node of every project. */
  function FolderIds(data: seq<ProjectTree>, kind: string): (r: seq<int>)
    ensures |r| <= |ProjectNodes(data)|
  {
    if data == [] then [] else FlattenAll(data[0].folders, kind) + FolderIds(data[1..], kind)
  }

  /** Independent reference: every node of the tree, parent before children, siblings in order. */
  function PreOrder(f: RawFolder): seq<RawFolder>
    decreases f
  {
    [f] + PreOrderAll(f.children)
  }

  function PreOrderAll(fs: seq<RawFolder>): seq<RawFolder>
    decreases fs
  {
    if fs == [] then [] else PreOrder(fs[0]) + PreOrderAll(fs[1..])
  }

  /** Every node of every project's tree, project after project, each tree in pre-order. */
  function ProjectNodes(data: seq<ProjectTree>): seq<RawFolder> {
    if data == [] then [] else PreOrderAll(data[0].folders) + ProjectNodes(data[1..])
  }

  /** The ids of the nodes of the given kind, in order. */
  function IdsOfKind(nodes: seq<RawFolder>, kind: string): (r: seq<int>)
    ensures |r| <= |nodes|
  {
    if nodes == [] then []
    else (if nodes[0].kind == kind then [nodes[0].id] else []) + IdsOfKind(nodes[1..], kind)
  }

  /** An id is listed exactly when some node of the kind carries it. */
  lemma {:induction false} IdsOfKindMembers(nodes: seq<RawFolder>, kind: string, x: int)
    ensures x in IdsOfKind(nodes, kind) <==> exists n :: n in nodes && n.kind == kind && n.id == x
    decreases |nodes|
  {
    if nodes != [] {
      IdsOfKindMembers(nodes[1..], kind, x);
      assert forall n :: n in nodes <==> n == nodes[0] || n in nodes[1..];
    }
  }

  lemma {:induction false} IdsOfKindAppend(a: seq<RawFolder>, b: seq<RawFolder>, kind: string)
    ensures IdsOfKind(a + b, kind) == IdsOfKind(a, kind) + IdsOfKind(b, kind)
    decreases |a|
  {
    if a == [] {
      assert a + b == b;
    } else {
      var ab := a + b;
      assert ab[0] == a[0];
      assert ab[1..] == a[1..] + b;
      IdsOfKindAppend(a[1..], b, kind);
      var head := if a[0].kind == kind then [a[0].id] else [];
      assert IdsOfKind(ab, kind) == head + IdsOfKind(ab[1..], kind);
      assert IdsOfKind(a, kind) == head + IdsOfKind(a[1..], kind);
    }
  }

  /**
   * `flatten` gives exactly the ids of the nodes of the requested kind in
   * pre-order, nodes nested under a node of another kind included.
   */
  lemma {:induction false} FlattenIsPreOrderOfKind(f: RawFolder, kind: string)
    ensures Flatten(f, kind) == IdsOfKind(PreOrder(f), kind)
    decreases f
  {
    FlattenAllIsPreOrderOfKind(f.children, kind);
    IdsOfKindAppend([f], PreOrderAll(f.children), kind);
  }

  lemma {:induction false} FlattenAllIsPreOrderOfKind(fs: seq<RawFolder>, kind: string)
    ensures FlattenAll(fs, kind) == IdsOfKind(PreOrderAll(fs), kind)
    decreases fs
  {
    if fs != [] {
      FlattenIsPreOrderOfKind(fs[0], kind);
      FlattenAllIsPreOrderOfKind(fs[1..], kind);
      IdsOfKindAppend(PreOrder(fs[0]), PreOrderAll(fs[1..]), kind);
    }
  }

  /**
   * The ids collected over all projects are the ids of the nodes of the
   * requested kind, project after project, each tree in pre-order.
   */
  lemma {:induction false} FolderIdsArePreOrderOfKind(data: seq<ProjectTree>, kind: string)
    ensures FolderIds(data, kind) == IdsOfKind(ProjectNodes(data), kind)
  {
    if data != [] {
      FlattenAllIsPreOrderOfKind(data[0].folders, kind);
      FolderIdsArePreOrderOfKind(data[1..], kind);
      IdsOfKindAppend(PreOrderAll(data[0].folders), ProjectNodes(data[1..]), kind);
    }
  }

  // ---------------------------------------------------------------------
  // Folder details
  // ---------------------------------------------------------------------

  /** The `_type` and id of a folder's parent (a project or a folder). */
  datatype ParentRef = ParentRef(kind: string, id: int)

  /** The body of `GET <kind>s/<id>`. */
  datatype FolderInfo = FolderInfo(name: string, description: Option<string>, parent: ParentRef,
                                   createdBy: string, createdOn: string,
                                   lastModifiedBy: Option<string>, lastModifiedOn: Option<string>)

  /** The flat record the tree is rebuilt from. */
  datatype FolderRecord = FolderRecord(id: int, name: string, description: Option<string>,
                                       parentFolderId: Option<int>, createdBy: string, createdOn: string,
                                       modifiedBy: Option<string>, modifiedOn: Option<string>)

  /** `${type}s/${folderID}` */
  function DetailEndpoint(kind: string, folderId: int): string {
    kind + "s/" + IntToString(folderId)
  }

  /**
   * The projection in `getFolderDetails`: the id is the one asked for, the
   * parent folder is kept only when the parent has the requested kind, and
   * the optional texts only when they are truthy.
   */
  function FolderDetails(folderId: int, kind: string, info: FolderInfo): (r: FolderRecord)
    ensures r.id == folderId && r.name == info.name
    ensures r.createdBy == info.createdBy && r.createdOn == info.createdOn
    ensures r.parentFolderId.Some? <==> info.parent.kind == kind
    ensures r.parentFolderId.Some? ==> r.parentFolderId.value == info.parent.id
    ensures r.description.Some? <==> Truthy(info.description)
    ensures r.modifiedBy.Some? <==> Truthy(info.lastModifiedBy)
    ensures r.modifiedOn.Some? <==> Truthy(info.lastModifiedOn)
    ensures r.description.Some? ==> r.description == info.description
    ensures r.modifiedBy.Some? ==> r.modifiedBy == info.lastModifiedBy
    ensures r.modifiedOn.Some? ==> r.modifiedOn == info.lastModifiedOn
  {
    FolderRecord(folderId, info.name, KeepTruthy(info.description),
                 if info.parent.kind == kind then Some(info.parent.id) else None,
                 info.createdBy, info.createdOn,
                 KeepTruthy(info.lastModifiedBy), KeepTruthy(info.lastModifiedOn))
  }

  // ---------------------------------------------------------------------
  // Rebuilding the forest: what the two passes compute
  // ---------------------------------------------------------------------

  /**
   * The id -> node map after the first pass has seen records 0 .. m-1: a
   * later record with the same id replaces the earlier node.
   */
  function IndexUpTo(records: seq<FolderRecord>, m: nat): (r: map<int, nat>)
    requires m <= |records|
    ensures forall id :: id in r ==> r[id] < m
  {
    if m == 0 then map[] else IndexUpTo(records, m - 1)[records[m - 1].id := m - 1]
  }

  /** Every id seen so far is in the map. */
  lemma {:induction false} IndexUpToHas(records: seq<FolderRecord>, m: nat)
    requires m <= |records|
    ensures forall j :: 0 <= j < m ==> records[j].id in IndexUpTo(records, m)
  {
    if m > 0 {
      IndexUpToHas(records, m - 1);
    }
  }

  /** The map sends an id to the last record seen with that id. */
  lemma {:induction false} IndexUpToLast(records: seq<FolderRecord>, m: nat, id: int)
    requires m <= |records| && id in IndexUpTo(records, m)
    ensures records[IndexUpTo(records, m)[id]].id == id
    ensures forall j :: IndexUpTo(records, m)[id] < j < m ==> records[j].id != id
  {
    if records[m - 1].id != id {
      IndexUpToLast(records, m - 1, id);
    }
  }

  /** An id the map knows was seen. */
  lemma IndexUpToOnly(records: seq<FolderRecord>, m: nat, id: int)
    requires m <= |records| && id in IndexUpTo(records, m)
    ensures exists j :: 0 <= j < m && records[j].id == id
  {
    IndexUpToLast(records, m, id);
  }

  function Index(records: seq<FolderRecord>): map<int, nat> {
    IndexUpTo(records, |records|)
  }

  /** The node `folderMap.get(folder.id)` finds for record i: the last record with that id. */
  function NodeOf(records: seq<FolderRecord>, i: nat): (k: nat)
    requires i < |records|
    ensures k < |records| && records[k].id == records[i].id && i <= k
  {
    IndexUpToHas(records, |records|);
    IndexUpToLast(records, |records|, records[i].id);
    Index(records)[records[i].id]
  }

  /** The node record i is attached under, or None when it becomes a root. */
  function ParentOf(records: seq<FolderRecord>, i: nat): (p: Option<nat>)
    requires i < |records|
    ensures p.Some? ==> p.value < |records| && Some(records[p.value].id) == records[i].parentFolderId
  {
    var pid := records[i].parentFolderId;
    if pid.Some? && pid.value in Index(records) then
      IndexUpToLast(records, |records|, pid.value);
      Some(Index(records)[pid.value])
    else None
  }

  /** The roots after the second pass has seen records 0 .. m-1. */
  function RootsUpTo(records: seq<FolderRecord>, m: nat): (r: seq<nat>)
    requires m <= |records|
    ensures |r| <= m
  {
    if m == 0 then []
    else if ParentOf(records, m - 1).None? then RootsUpTo(records, m - 1) + [NodeOf(records, m - 1)]
    else RootsUpTo(records, m - 1)
  }

  /** The children of node o after the second pass has seen records 0 .. m-1. */
  function ChildrenUpTo(records: seq<FolderRecord>, o: nat, m: nat): (r: seq<nat>)
    requires m <= |records|
    ensures |r| <= m
  {
    if m == 0 then []
    else if ParentOf(records, m - 1) == Some(o) then ChildrenUpTo(records, o, m - 1) + [NodeOf(records, m - 1)]
    else ChildrenUpTo(records, o, m - 1)
  }

  function Roots(records: seq<FolderRecord>): seq<nat> {
    RootsUpTo(records, |records|)
  }

  function Children(records: seq<FolderRecord>, o: nat): seq<nat> {
    ChildrenUpTo(records, o, |records|)
  }

  /** The fields a node copies from its record (everything but the parent), before any child is added. */
  datatype FolderNode = FolderNode(id: int, name: string, description: Option<string>,
                                   createdBy: string, createdOn: string,
                                   modifiedBy: Option<string>, modifiedOn: Option<string>)

  function NodeFields(rec: FolderRecord): FolderNode {
    FolderNode(rec.id, rec.name, rec.description, rec.createdBy, rec.createdOn, rec.modifiedBy, rec.modifiedOn)
  }

  /**
   * `buildFolderTree`. The first pass creates a node with no children for
   * every record and maps its id to it; the second appends each record's
   * node to its parent's children or to the roots.
   */
  method BuildFolderTree(records: seq<FolderRecord>)
    returns (nodes: array<FolderNode>, children: array<seq<nat>>, roots: seq<nat>)
    ensures fresh(nodes) && fresh(children)
    ensures nodes.Length == |records| && children.Length == |records|
    ensures forall k :: 0 <= k < |records| ==> nodes[k] == NodeFields(records[k])
    ensures roots == Roots(records)
    ensures forall k :: 0 <= k < |records| ==> children[k] == Children(records, k)
  {
    var folderMap;
    nodes, children, folderMap := CreateNodes(records);
    roots := AttachNodes(records, folderMap, children);
  }

  /** The first pass: a childless node per record, and the map from each id to its (last) node. */
  method CreateNodes(records: seq<FolderRecord>)
    returns (nodes: array<FolderNode>, children: array<seq<nat>>, folderMap: map<int, nat>)
    ensures fresh(nodes) && fresh(children)
    ensures nodes.Length == |records| && children.Length == |records|
    ensures forall k :: 0 <= k < |records| ==> nodes[k] == NodeFields(records[k]) && children[k] == []
    ensures folderMap == Index(records)
  {
    nodes := new FolderNode[|records|];
    children := new seq<nat>[|records|];
    folderMap := map[];
    var i := 0;
    while i < |records|
      invariant 0 <= i <= |records|
      invariant folderMap == IndexUpTo(records, i)
      invariant forall k :: 0 <= k < i ==> nodes[k] == NodeFields(records[k]) && children[k] == []
    {
      nodes[i] := NodeFields(records[i]);
      children[i] := [];
      folderMap := folderMap[records[i].id := i];
      i := i + 1;
    }
  }

  /**
   * The second pass: each record's node goes to the end of its parent's
   * children when the parent is in the map, to the end of the roots otherwise.
   */
  method AttachNodes(records: seq<FolderRecord>, folderMap: map<int, nat>, children: array<seq<nat>>)
    returns (roots: seq<nat>)
    requires folderMap == Index(records)
    requires children.Length == |records| && forall k :: 0 <= k < |records| ==> children[k] == []
    modifies children
    ensures roots == Roots(records)
    ensures forall k :: 0 <= k < |records| ==> children[k] == Children(records, k)
  {
    IndexUpToHas(records, |records|);
    roots := [];
    var i := 0;
    while i < |records|
      invariant 0 <= i <= |records|
      invariant roots == RootsUpTo(records, i)
      invariant forall k :: 0 <= k < |records| ==> children[k] == ChildrenUpTo(records, k, i)
    {
      var node := folderMap[records[i].id];
      assert node == NodeOf(records, i);
      var pid := records[i].parentFolderId;
      ghost var p := ParentOf(records, i);
      RootsStep(records, i);
      if pid.None? {
        assert p.None?;
        ChildrenKeep(records, i);
        roots := roots + [node];
      } else if pid.value in folderMap {
        var parent := folderMap[pid.value];
        assert p == Some(parent);
        ChildrenGrow(records, i, parent);
        children[parent] := children[parent] + [node];
      } else {
        assert p.None?;
        ChildrenKeep(records, i);
        roots := roots + [node];
      }
      i := i + 1;
    }
  }

  /** A record that becomes a root leaves every children list as it was. */
  lemma ChildrenKeep(records: seq<FolderRecord>, i: nat)
    requires i < |records| && ParentOf(records, i).None?
    ensures forall k :: 0 <= k < |records| ==> ChildrenUpTo(records, k, i + 1) == ChildrenUpTo(records, k, i)
  {
  }

  /** A record with a parent grows that parent's children list by its node, and no other list. */
  lemma ChildrenGrow(records: seq<FolderRecord>, i: nat, parent: nat)
    requires i < |records| && ParentOf(records, i) == Some(parent)
    ensures ChildrenUpTo(records, parent, i + 1) == ChildrenUpTo(records, parent, i) + [NodeOf(records, i)]
    ensures forall k :: 0 <= k < |records| && k != parent ==> ChildrenUpTo(records, k, i + 1) == ChildrenUpTo(records, k, i)
  {
  }

  // ---------------------------------------------------------------------
  // Properties of the rebuilt forest
  // ---------------------------------------------------------------------

  /**
   * A record is a root exactly when it names no parent folder or names one
   * that no record carries; otherwise it hangs under a record with that id.
   */
  lemma RootCriterion(records: seq<FolderRecord>, i: nat)
    requires i < |records|
    ensures ParentOf(records, i).None? <==>
              records[i].parentFolderId.None? ||
              forall j :: 0 <= j < |records| ==> records[j].id != records[i].parentFolderId.value
  {
    var pid := records[i].parentFolderId;
    if pid.Some? && pid.value in Index(records) {
      IndexUpToOnly(records, |records|, pid.value);
    }
    IndexUpToHas(records, |records|);
  }

  /** No two records share an id. */
  ghost predicate DistinctIds(records: seq<FolderRecord>) {
    forall i, j :: 0 <= i < j < |records| ==> records[i].id != records[j].id
  }

  predicate Increasing(s: seq<nat>) {
    forall a, b :: 0 <= a < b < |s| ==> s[a] < s[b]
  }

  /** With distinct ids, each record's node is its own. */
  lemma NodeOfDistinct(records: seq<FolderRecord>, i: nat)
    requires DistinctIds(records) && i < |records|
    ensures NodeOf(records, i) == i
  {
  }

  /**
   * With distinct ids the roots are exactly the records that have no parent
   * node, in input order.
   */
  lemma {:induction false} RootsInInputOrder(records: seq<FolderRecord>, m: nat)
    requires DistinctIds(records) && m <= |records|
    ensures Increasing(RootsUpTo(records, m))
    ensures forall k: nat :: k in RootsUpTo(records, m) <==> k < m && ParentOf(records, k).None?
  {
    RootsIncreasing(records, m);
    forall k: nat
      ensures k in RootsUpTo(records, m) <==> k < m && ParentOf(records, k).None?
    {
      RootsMember(records, m, k);
    }
  }

  lemma {:induction false} RootsMember(records: seq<FolderRecord>, m: nat, k: nat)
    requires DistinctIds(records) && m <= |records|
    ensures k in RootsUpTo(records, m) <==> k < m && ParentOf(records, k).None?
  {
    if m > 0 {
      RootsMember(records, m - 1, k);
      NodeOfDistinct(records, m - 1);
      RootsStep(records, m - 1);
    }
  }

  lemma {:induction false} RootsIncreasing(records: seq<FolderRecord>, m: nat)
    requires DistinctIds(records) && m <= |records|
    ensures Increasing(RootsUpTo(records, m))
  {
    if m > 0 {
      RootsIncreasing(records, m - 1);
      RootsStep(records, m - 1);
      if ParentOf(records, m - 1).None? {
        NodeOfDistinct(records, m - 1);
        var prev := RootsUpTo(records, m - 1);
        forall a | 0 <= a < |prev|
          ensures prev[a] < m - 1
        {
          RootsMember(records, m - 1, prev[a]);
        }
        IncreasingSnoc(prev, m - 1);
      }
    }
  }

  lemma IncreasingSnoc(s: seq<nat>, x: nat)
    requires Increasing(s) && forall a :: 0 <= a < |s| ==> s[a] < x
    ensures Increasing(s + [x])
  {
    var r := s + [x];
    forall a, b | 0 <= a < b < |r|
      ensures r[a] < r[b]
    {
      assert r[a] == s[a];
    }
  }

  /**
   * With distinct ids the children of node o are exactly the records whose
   * parent node is o, in input order.
   */
  lemma {:induction false} ChildrenInInputOrder(records: seq<FolderRecord>, o: nat, m: nat)
    requires DistinctIds(records) && m <= |records|
    ensures Increasing(ChildrenUpTo(records, o, m))
    ensures forall k: nat :: k in ChildrenUpTo(records, o, m) <==> k < m && ParentOf(records, k) == Some(o)
  {
    ChildrenIncreasing(records, o, m);
    forall k: nat
      ensures k in ChildrenUpTo(records, o, m) <==> k < m && ParentOf(records, k) == Some(o)
    {
      ChildrenMember(records, o, m, k);
    }
  }

  lemma ChildrenStep(records: seq<FolderRecord>, o: nat, m: nat)
    requires m < |records|
    ensures ChildrenUpTo(records, o, m + 1)
            == if ParentOf(records, m) == Some(o) then ChildrenUpTo(records, o, m) + [NodeOf(records, m)]
               else ChildrenUpTo(records, o, m)
  {
  }

  lemma {:induction false} ChildrenMember(records: seq<FolderRecord>, o: nat, m: nat, k: nat)
    requires DistinctIds(records) && m <= |records|
    ensures k in ChildrenUpTo(records, o, m) <==> k < m && ParentOf(records, k) == Some(o)
  {
    if m > 0 {
      ChildrenMember(records, o, m - 1, k);
      NodeOfDistinct(records, m - 1);
      ChildrenStep(records, o, m - 1);
    }
  }

  lemma {:induction false} ChildrenIncreasing(records: seq<FolderRecord>, o: nat, m: nat)
    requires DistinctIds(records) && m <= |records|
    ensures Increasing(ChildrenUpTo(records, o, m))
  {
    if m > 0 {
      ChildrenIncreasing(records, o, m - 1);
      ChildrenStep(records, o, m - 1);
      if ParentOf(records, m - 1) == Some(o) {
        NodeOfDistinct(records, m - 1);
        var prev := ChildrenUpTo(records, o, m - 1);
        forall a | 0 <= a < |prev|
          ensures prev[a] < m - 1
        {
          ChildrenMember(records, o, m - 1, prev[a]);
        }
        IncreasingSnoc(prev, m - 1);
      }
    }
  }

  /**
   * The parent links have no cycle, witnessed by a depth per record that
   * grows from parent to child (every acyclic forest of n nodes has one
   * below n).
   */
  ghost predicate Layered(records: seq<FolderRecord>, depth: seq<nat>) {
    |depth| == |records| &&
    forall i :: 0 <= i < |records| ==>
      depth[i] < |records| && (ParentOf(records, i).Some? ==> depth[ParentOf(records, i).value] < depth[i])
  }

  /** A folder of the returned forest with its subfolders. */
  datatype Folder = Folder(node: FolderNode, children: seq<Folder>)

  /** The folder the arena holds at node o, read down its children lists. */
  ghost function Subtree(records: seq<FolderRecord>, depth: seq<nat>, o: nat): Folder
    requires DistinctIds(records) && Layered(records, depth) && o < |records|
    decreases |records| - depth[o], 1, 0
  {
    ChildrenInInputOrder(records, o, |records|);
    Folder(NodeFields(records[o]), Subforest(records, depth, Children(records, o), depth[o]))
  }

  ghost function Subforest(records: seq<FolderRecord>, depth: seq<nat>, ks: seq<nat>, d: int): seq<Folder>
    requires DistinctIds(records) && Layered(records, depth) && -1 <= d < |records|
    requires forall k :: k in ks ==> k < |records| && d < depth[k]
    decreases |records| - d, 0, |ks|
  {
    if ks == [] then []
    else
      assert ks[0] in ks && forall k :: k in ks[1..] ==> k in ks;
      [Subtree(records, depth, ks[0])] + Subforest(records, depth, ks[1..], d)
  }

  /** The returned forest: the subtrees of the roots, in order. */
  ghost function Forest(records: seq<FolderRecord>, depth: seq<nat>): seq<Folder>
    requires DistinctIds(records) && Layered(records, depth)
  {
    RootsInInputOrder(records, |records|);
    Subforest(records, depth, Roots(records), -1)
  }

  /** The ids of a folder and its subfolders, parent first. */
  function TreeIds(t: Folder): seq<int>
    decreases t
  {
    [t.node.id] + ForestIds(t.children)
  }

  function ForestIds(ts: seq<Folder>): seq<int>
    decreases ts
  {
    if ts == [] then [] else TreeIds(ts[0]) + ForestIds(ts[1..])
  }

  function RecordIds(records: seq<FolderRecord>): (r: seq<int>)
    ensures |r| == |records| && forall i :: 0 <= i < |records| ==> r[i] == records[i].id
  {
    seq(|records|, i requires 0 <= i < |records| => records[i].id)
  }

  /** Record a is record j or one of its ancestors. */
  ghost predicate AncestorOrSelf(records: seq<FolderRecord>, depth: seq<nat>, a: nat, j: nat)
    requires Layered(records, depth) && a < |records| && j < |records|
    decreases depth[j]
  {
    j == a || (ParentOf(records, j).Some? && AncestorOrSelf(records, depth, a, ParentOf(records, j).value))
  }

  lemma {:induction false} AncestorIsShallower(records: seq<FolderRecord>, depth: seq<nat>, a: nat, j: nat)
    requires Layered(records, depth) && a < |records| && j < |records|
    requires AncestorOrSelf(records, depth, a, j)
    ensures depth[a] <= depth[j]
    decreases depth[j]
  {
    if j != a {
      AncestorIsShallower(records, depth, a, ParentOf(records, j).value);
    }
  }

  lemma {:induction false} AncestorTransitive(records: seq<FolderRecord>, depth: seq<nat>, a: nat, b: nat, c: nat)
    requires Layered(records, depth) && a < |records| && b < |records| && c < |records|
    requires AncestorOrSelf(records, depth, a, b) && AncestorOrSelf(records, depth, b, c)
    ensures AncestorOrSelf(records, depth, a, c)
    decreases depth[c]
  {
    if c != b {
      AncestorTransitive(records, depth, a, b, ParentOf(records, c).value);
    }
  }

  /** Two ancestors of the same record lie on one chain. */
  lemma {:induction false} AncestorsComparable(records: seq<FolderRecord>, depth: seq<nat>, a: nat, b: nat, j: nat)
    requires Layered(records, depth) && a < |records| && b < |records| && j < |records|
    requires AncestorOrSelf(records, depth, a, j) && AncestorOrSelf(records, depth, b, j)
    ensures AncestorOrSelf(records, depth, a, b) || AncestorOrSelf(records, depth, b, a)
    decreases depth[j]
  {
    if j != a && j != b {
      AncestorsComparable(records, depth, a, b, ParentOf(records, j).value);
    }
  }

  /** Below a proper ancestor o of j there is a child of o on the way down to j. */
  lemma {:induction false} ChildTowards(records: seq<FolderRecord>, depth: seq<nat>, o: nat, j: nat)
    returns (c: nat)
    requires Layered(records, depth) && o < |records| && j < |records|
    requires AncestorOrSelf(records, depth, o, j) && j != o
    ensures c < |records| && ParentOf(records, c) == Some(o) && AncestorOrSelf(records, depth, c, j)
    decreases depth[j]
  {
    var p := ParentOf(records, j).value;
    if p == o {
      c := j;
    } else {
      c := ChildTowards(records, depth, o, p);
      assert AncestorOrSelf(records, depth, p, j);
      AncestorTransitive(records, depth, c, p, j);
    }
  }

  /** Every record has a root above it. */
  lemma {:induction false} RootAbove(records: seq<FolderRecord>, depth: seq<nat>, j: nat)
    returns (r: nat)
    requires Layered(records, depth) && j < |records|
    ensures r < |records| && ParentOf(records, r).None? && AncestorOrSelf(records, depth, r, j)
    decreases depth[j]
  {
    if ParentOf(records, j).None? {
      r := j;
    } else {
      var p := ParentOf(records, j).value;
      r := RootAbove(records, depth, p);
      assert AncestorOrSelf(records, depth, p, j);
      AncestorTransitive(records, depth, r, p, j);
    }
  }

  /** Of the records hanging under one node, at most one is an ancestor of j. */
  lemma SiblingsDisjoint(records: seq<FolderRecord>, depth: seq<nat>, o: nat, c1: nat, c2: nat, j: nat)
    requires Layered(records, depth) && o < |records| && c1 < |records| && c2 < |records| && j < |records|
    requires ParentOf(records, c1) == Some(o) && ParentOf(records, c2) == Some(o)
    requires AncestorOrSelf(records, depth, c1, j) && AncestorOrSelf(records, depth, c2, j)
    ensures c1 == c2
  {
    AncestorsComparable(records, depth, c1, c2, j);
    if c1 != c2 {
      if AncestorOrSelf(records, depth, c1, c2) {
        AncestorIsShallower(records, depth, c1, o);
      } else {
        AncestorIsShallower(records, depth, c2, o);
      }
    }
  }

  /** At most one root is an ancestor of j. */
  lemma RootsDisjoint(records: seq<FolderRecord>, depth: seq<nat>, r1: nat, r2: nat, j: nat)
    requires Layered(records, depth) && r1 < |records| && r2 < |records| && j < |records|
    requires ParentOf(records, r1).None? && ParentOf(records, r2).None?
    requires AncestorOrSelf(records, depth, r1, j) && AncestorOrSelf(records, depth, r2, j)
    ensures r1 == r2
  {
    AncestorsComparable(records, depth, r1, r2, j);
  }

  /** In the subtree of o, the id of record j occurs once if o is above j, and not at all otherwise. */
  lemma {:induction false} CountInSubtree(records: seq<FolderRecord>, depth: seq<nat>, o: nat, j: nat)
    requires DistinctIds(records) && Layered(records, depth) && o < |records| && j < |records|
    ensures multiset(TreeIds(Subtree(records, depth, o)))[records[j].id]
            == if AncestorOrSelf(records, depth, o, j) then 1 else 0
    decreases |records| - depth[o], 1, 0
  {
    ChildrenInInputOrder(records, o, |records|);
    var kids := Children(records, o);
    var below := Subforest(records, depth, kids, depth[o]);
    assert TreeIds(Subtree(records, depth, o)) == [records[o].id] + ForestIds(below);
    forall a, b | a in kids && b in kids && AncestorOrSelf(records, depth, a, j) && AncestorOrSelf(records, depth, b, j)
      ensures a == b
    {
      SiblingsDisjoint(records, depth, o, a, b, j);
    }
    CountInSubforest(records, depth, kids, depth[o], j);
    if j == o {
      forall k | k in kids && AncestorOrSelf(records, depth, k, j)
        ensures false
      {
        AncestorIsShallower(records, depth, k, j);
      }
    } else if AncestorOrSelf(records, depth, o, j) {
      var c := ChildTowards(records, depth, o, j);
      assert c in kids;
    } else {
      forall k | k in kids && AncestorOrSelf(records, depth, k, j)
        ensures false
      {
        assert AncestorOrSelf(records, depth, o, k);
        AncestorTransitive(records, depth, o, k, j);
      }
    }
  }

  /**
   * In the subtrees of the distinct nodes ks, of which at most one is above
   * record j, the id of j occurs once if one of them is above j.
   */
  lemma {:induction false} CountInSubforest(records: seq<FolderRecord>, depth: seq<nat>, ks: seq<nat>, d: int, j: nat)
    requires DistinctIds(records) && Layered(records, depth) && -1 <= d < |records| && j < |records|
    requires forall k :: k in ks ==> k < |records| && d < depth[k]
    requires Increasing(ks)
    requires forall a, b :: a in ks && b in ks && AncestorOrSelf(records, depth, a, j) && AncestorOrSelf(records, depth, b, j) ==> a == b
    ensures multiset(ForestIds(Subforest(records, depth, ks, d)))[records[j].id]
            == if exists k :: k in ks && AncestorOrSelf(records, depth, k, j) then 1 else 0
    decreases |records| - d, 0, |ks|
  {
    if ks != [] {
      assert ks[0] in ks && forall k :: k in ks[1..] ==> k in ks;
      var t := Subtree(records, depth, ks[0]);
      var rest := Subforest(records, depth, ks[1..], d);
      assert Subforest(records, depth, ks, d) == [t] + rest;
      assert ([t] + rest)[0] == t && ([t] + rest)[1..] == rest;
      CountInSubtree(records, depth, ks[0], j);
      CountInSubforest(records, depth, ks[1..], d, j);
      if AncestorOrSelf(records, depth, ks[0], j) {
        assert ks[0] !in ks[1..];
      } else {
        assert forall k :: k in ks ==> k == ks[0] || k in ks[1..];
      }
    }
  }

  lemma {:induction false} SubtreeIdsAreRecordIds(records: seq<FolderRecord>, depth: seq<nat>, o: nat)
    requires DistinctIds(records) && Layered(records, depth) && o < |records|
    ensures forall x :: x in TreeIds(Subtree(records, depth, o)) ==> x in RecordIds(records)
    decreases |records| - depth[o], 1, 0
  {
    ChildrenInInputOrder(records, o, |records|);
    SubforestIdsAreRecordIds(records, depth, Children(records, o), depth[o]);
  }

  lemma {:induction false} SubforestIdsAreRecordIds(records: seq<FolderRecord>, depth: seq<nat>, ks: seq<nat>, d: int)
    requires DistinctIds(records) && Layered(records, depth) && -1 <= d < |records|
    requires forall k :: k in ks ==> k < |records| && d < depth[k]
    ensures forall x :: x in ForestIds(Subforest(records, depth, ks, d)) ==> x in RecordIds(records)
    decreases |records| - d, 0, |ks|
  {
    if ks != [] {
      assert ks[0] in ks && forall k :: k in ks[1..] ==> k in ks;
      var t := Subtree(records, depth, ks[0]);
      var rest := Subforest(records, depth, ks[1..], d);
      assert ([t] + rest)[0] == t && ([t] + rest)[1..] == rest;
      SubtreeIdsAreRecordIds(records, depth, ks[0]);
      SubforestIdsAreRecordIds(records, depth, ks[1..], d);
    }
  }

  /** In a sequence without repeats every element occurs once. */
  lemma {:induction false} OnceEach(s: seq<int>, j: nat)
    requires forall a, b :: 0 <= a < b < |s| ==> s[a] != s[b]
    requires j < |s|
    ensures multiset(s)[s[j]] == 1
    decreases |s|
  {
    var n := |s| - 1;
    assert s == s[..n] + [s[n]];
    if j == n {
      assert s[n] !in s[..n];
    } else {
      OnceEach(s[..n], j);
    }
  }

  /**
   * With distinct ids and no cycle among the parent links, every record
   * appears exactly once in the returned forest: the forest's ids are the
   * records' ids, each once, so it has as many folders as there are records.
   */
  lemma EveryFolderOnce(records: seq<FolderRecord>, depth: seq<nat>)
    requires DistinctIds(records) && Layered(records, depth)
    ensures multiset(ForestIds(Forest(records, depth))) == multiset(RecordIds(records))
    ensures |ForestIds(Forest(records, depth))| == |records|
  {
    RootsInInputOrder(records, |records|);
    var ids := ForestIds(Forest(records, depth));
    var all := RecordIds(records);
    forall j | 0 <= j < |all|
      ensures multiset(ids)[all[j]] == 1
    {
      RecordOnceInForest(records, depth, j);
    }
    SubforestIdsAreRecordIds(records, depth, Roots(records), -1);
    SameElementsOnce(ids, all);
  }

  /** The id of record j occurs once in the forest: it sits under exactly one root. */
  lemma RecordOnceInForest(records: seq<FolderRecord>, depth: seq<nat>, j: nat)
    requires DistinctIds(records) && Layered(records, depth) && j < |records|
    ensures multiset(ForestIds(Forest(records, depth)))[records[j].id] == 1
  {
    RootsInInputOrder(records, |records|);
    var roots := Roots(records);
    forall a, b | a in roots && b in roots && AncestorOrSelf(records, depth, a, j) && AncestorOrSelf(records, depth, b, j)
      ensures a == b
    {
      RootsDisjoint(records, depth, a, b, j);
    }
    CountInSubforest(records, depth, roots, -1, j);
    var r := RootAbove(records, depth, j);
    assert r in roots;
  }

  /**
   * A sequence holding only elements of a repeat-free sequence, each of them
   * once, is a permutation of it.
   */
  lemma SameElementsOnce(ids: seq<int>, all: seq<int>)
    requires forall a, b :: 0 <= a < b < |all| ==> all[a] != all[b]
    requires forall j :: 0 <= j < |all| ==> multiset(ids)[all[j]] == 1
    requires forall x :: x in ids ==> x in all
    ensures multiset(ids) == multiset(all) && |ids| == |all|
  {
    forall x
      ensures multiset(ids)[x] == multiset(all)[x]
    {
      if x in all {
        var j :| 0 <= j < |all| && all[j] == x;
        OnceEach(all, j);
      } else {
        assert x !in ids;
      }
    }
    assert multiset(ids) == multiset(all);
    assert |ids| == |multiset(ids)| == |multiset(all)| == |all|;
  }

  /** How many nodes sit in the children lists of nodes 0 .. n-1 after records 0 .. m-1. */
  function ChildCount(records: seq<FolderRecord>, m: nat, n: nat): nat
    requires m <= |records|
  {
    if n == 0 then 0 else ChildCount(records, m, n - 1) + |ChildrenUpTo(records, n - 1, m)|
  }

  lemma {:induction false} NoChildrenYet(records: seq<FolderRecord>, n: nat)
    ensures ChildCount(records, 0, n) == 0
  {
    if n > 0 {
      NoChildrenYet(records, n - 1);
    }
  }

  lemma {:induction false} ChildCountStep(records: seq<FolderRecord>, m: nat, n: nat)
    requires m < |records|
    ensures ChildCount(records, m + 1, n)
            == ChildCount(records, m, n) + (if ParentOf(records, m).Some? && ParentOf(records, m).value < n then 1 else 0)
  {
    if n > 0 {
      ChildCountStep(records, m, n - 1);
    }
  }

  /** A record without a resolvable parent appends its node to the roots; any other leaves them alone. */
  lemma RootsStep(records: seq<FolderRecord>, m: nat)
    requires m < |records|
    ensures RootsUpTo(records, m + 1)
            == if ParentOf(records, m).None? then RootsUpTo(records, m) + [NodeOf(records, m)] else RootsUpTo(records, m)
  {
  }

  /**
   * Whatever the ids and parent links, the second pass makes one entry per
   * record: the roots and all children lists together hold as many entries
   * as there are records (for a repeated id, the entry is the last such
   * record's node).
   */
  lemma {:induction false} EveryRecordPlaced(records: seq<FolderRecord>, m: nat)
    requires m <= |records|
    ensures |RootsUpTo(records, m)| + ChildCount(records, m, |records|) == m
  {
    if m > 0 {
      EveryRecordPlaced(records, m - 1);
      ChildCountStep(records, m - 1, |records|);
      RootsStep(records, m - 1);
      assert |RootsUpTo(records, m)| == |RootsUpTo(records, m - 1)| + (if ParentOf(records, m - 1).None? then 1 else 0);
    } else {
      NoChildrenYet(records, |records|);
    }
  }

  // ---------------------------------------------------------------------
  // getFoldersTree
  // ---------------------------------------------------------------------

  /** `${resource}/tree/${projectId}` */
  function TreeEndpoint(kind: FolderKind, projectId: int): string {
    kind.Resource() + "/tree/" + IntToString(projectId)
  }

  function DetailEndpoints(kind: FolderKind, ids: seq<int>): (r: seq<string>)
    ensures |r| == |ids| && forall i :: 0 <= i < |ids| ==> r[i] == DetailEndpoint(kind.TypeName(), ids[i])
  {
    seq(|ids|, i requires 0 <= i < |ids| => DetailEndpoint(kind.TypeName(), ids[i]))
  }

  /** The records `getFolderDetails` makes of the folders with the given ids. */
  function DetailsOf(kind: FolderKind, ids: seq<int>, infoServer: string -> FolderInfo): (r: seq<FolderRecord>)
    ensures |r| == |ids|
    ensures forall i :: 0 <= i < |ids| ==>
              r[i] == FolderDetails(ids[i], kind.TypeName(), infoServer(DetailEndpoint(kind.TypeName(), ids[i])))
  {
    seq(|ids|, i requires 0 <= i < |ids| =>
      FolderDetails(ids[i], kind.TypeName(), infoServer(DetailEndpoint(kind.TypeName(), ids[i]))))
  }

  /**
   * `getFoldersTree`: fetch the raw tree, flatten it to the ids of the
   * requested kind, fetch every folder's details (all requests are issued;
   * any failure fails the whole) and rebuild the forest from them.
   */
  method GetFoldersTree<P>(store: Store<P>, projectId: int, kind: FolderKind,
                           treeServer: string -> seq<ProjectTree>, infoServer: string -> FolderInfo)
    returns (ok: bool, ghost records: seq<FolderRecord>,
             nodes: array<FolderNode>, children: array<seq<nat>>, roots: seq<nat>)
    modifies store`log
    ensures var pos := |old(store.log)|;
            var treeGet := Request(GET, TreeEndpoint(kind, projectId), None);
            if pos in store.failing then
              !ok && store.log == old(store.log) + [treeGet]
            else
              var ids := FolderIds(treeServer(TreeEndpoint(kind, projectId)), kind.TypeName());
              && store.log == old(store.log) + [treeGet] + Gets(DetailEndpoints(kind, ids))
              && (ok <==> AllOk(store.failing, pos + 1, |ids|))
              && (ok ==> records == DetailsOf(kind, ids, infoServer))
    ensures ok ==> nodes.Length == |records| && children.Length == |records|
    ensures ok ==> forall k :: 0 <= k < |records| ==> nodes[k] == NodeFields(records[k])
    ensures ok ==> roots == Roots(records)
    ensures ok ==> forall k :: 0 <= k < |records| ==> children[k] == Children(records, k)
  {
    nodes := new FolderNode[0];
    children := new seq<nat>[0];
    roots := [];
    records := [];
    var data := store.Get(TreeEndpoint(kind, projectId), treeServer);
    if data.None? {
      return false, records, nodes, children, roots;
    }
    var allFolderIds := FolderIds(data.value, kind.TypeName());
    var infos := store.GetAll(DetailEndpoints(kind, allFolderIds), infoServer);
    if infos.None? {
      return false, records, nodes, children, roots;
    }
    var details := seq(|allFolderIds|, i requires 0 <= i < |allFolderIds| =>
      FolderDetails(allFolderIds[i], kind.TypeName(), infos.value[i]));
    records := details;
    nodes, children, roots := BuildFolderTree(details);
    ok := true;
  }
}
