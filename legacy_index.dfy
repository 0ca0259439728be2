/**
 * The older single-file server: its folder-tree detailing, its project and
 * folder-content listings (which answer with a text when nothing is found)
 * and its creation of test cases and projects.
 */
module LegacyIndex {
  import opened Wrappers
  import opened JsValues
  import opened SquashStore
  import opened Paging
  import FolderTree
  import Deletion
  import TestCaseTools
  import ProjectTools

  // ---------------------------------------------------------------------
  // getDetailedFolders
  // ---------------------------------------------------------------------

  /** The part of `GET <resource>/<id>` a folder's detailing reads. */
  datatype FolderDetail = FolderDetail(description: string, createdBy: string, createdOn: string,
                                       lastModifiedBy: string, lastModifiedOn: string)

  /** A folder as the tree tools report it. */
  datatype SimplifiedFolder = SimplifiedFolder(id: int, name: string, description: string,
                                               createdBy: string, createdOn: string,
                                               modifiedBy: string, modifiedOn: string,
                                               children: seq<SimplifiedFolder>)

  /** `${type}/${folder.id}` */
  function FolderDetailEndpoint(resource: string, id: int): string {
    Deletion.ItemEndpoint(resource, id)
  }

  /**
   * One folder of `getDetailedFolders`: its details fetched, its children
   * detailed in turn. `fetch` answers each details GET, None when it throws;
   * any throw rejects the whole `Promise.all`.
   */
  function DetailedFolder(f: FolderTree.RawFolder, resource: string, fetch: string -> Option<FolderDetail>)
    : (r: Option<SimplifiedFolder>)
    ensures r.Some? ==> r.value.id == f.id && r.value.name == f.name && |r.value.children| == |f.children|
    ensures r.Some? ==> forall i :: 0 <= i < |f.children| ==> r.value.children[i].id == f.children[i].id
    decreases f
  {
    var d := fetch(FolderDetailEndpoint(resource, f.id));
    var kids := DetailedFolders(f.children, resource, fetch);
    if d.None? || kids.None? then None
    else Some(SimplifiedFolder(f.id, f.name, d.value.description, d.value.createdBy, d.value.createdOn,
                               d.value.lastModifiedBy, d.value.lastModifiedOn, kids.value))
  }

  /** `getDetailedFolders(folders, type)`: every folder detailed, in order. */
  function DetailedFolders(fs: seq<FolderTree.RawFolder>, resource: string, fetch: string -> Option<FolderDetail>)
    : (r: Option<seq<SimplifiedFolder>>)
    ensures r.Some? ==> |r.value| == |fs|
    ensures r.Some? ==> forall i :: 0 <= i < |fs| ==> r.value[i].id == fs[i].id && r.value[i].name == fs[i].name
    decreases fs
  {
    if fs == [] then Some([])
    else
      var first := DetailedFolder(fs[0], resource, fetch);
      var rest := DetailedFolders(fs[1..], resource, fetch);
      if first.None? || rest.None? then None else Some([first.value] + rest.value)
  }

  /** Every node's details GET succeeds. */
  predicate AllFetched(nodes: seq<FolderTree.RawFolder>, resource: string, fetch: string -> Option<FolderDetail>) {
    forall i :: 0 <= i < |nodes| ==> fetch(FolderDetailEndpoint(resource, nodes[i].id)).Some?
  }

  lemma AllFetchedAppend(a: seq<FolderTree.RawFolder>, b: seq<FolderTree.RawFolder>, resource: string,
                         fetch: string -> Option<FolderDetail>)
    ensures AllFetched(a + b, resource, fetch) <==> AllFetched(a, resource, fetch) && AllFetched(b, resource, fetch)
  {
    if AllFetched(a, resource, fetch) && AllFetched(b, resource, fetch) {
      forall i | 0 <= i < |a + b|
        ensures fetch(FolderDetailEndpoint(resource, (a + b)[i].id)).Some?
      {
        if i >= |a| {
          assert (a + b)[i] == b[i - |a|];
        }
      }
    }
    if AllFetched(a + b, resource, fetch) {
      forall i | 0 <= i < |a|
        ensures fetch(FolderDetailEndpoint(resource, a[i].id)).Some?
      {
        assert (a + b)[i] == a[i];
      }
      forall i | 0 <= i < |b|
        ensures fetch(FolderDetailEndpoint(resource, b[i].id)).Some?
      {
        assert (a + b)[|a| + i] == b[i];
      }
    }
  }

  /** A folder is detailed exactly when the details GET of every folder of its subtree succeeds. */
  lemma {:induction false} DetailedFolderSucceedsIff(f: FolderTree.RawFolder, resource: string,
                                                     fetch: string -> Option<FolderDetail>)
    ensures DetailedFolder(f, resource, fetch).Some? <==> AllFetched(FolderTree.PreOrder(f), resource, fetch)
    decreases f, 1
  {
    DetailedFoldersSucceedIff(f.children, resource, fetch);
    AllFetchedAppend([f], FolderTree.PreOrderAll(f.children), resource, fetch);
    assert AllFetched([f], resource, fetch) <==> fetch(FolderDetailEndpoint(resource, f.id)).Some? by {
      assert [f][0] == f;
    }
  }

  /**
   * `getDetailedFolders` resolves exactly when the details GET of every
   * folder of the forest, at any depth, succeeds.
   */
  lemma {:induction false} DetailedFoldersSucceedIff(fs: seq<FolderTree.RawFolder>, resource: string,
                                                     fetch: string -> Option<FolderDetail>)
    ensures DetailedFolders(fs, resource, fetch).Some? <==> AllFetched(FolderTree.PreOrderAll(fs), resource, fetch)
    decreases fs, 0
  {
    if fs != [] {
      DetailedFolderSucceedsIff(fs[0], resource, fetch);
      DetailedFoldersSucceedIff(fs[1..], resource, fetch);
      AllFetchedAppend(FolderTree.PreOrder(fs[0]), FolderTree.PreOrderAll(fs[1..]), resource, fetch);
    }
  }

  /**
   * Independent reference: an answer mirrors a raw folder when it has the
   * raw folder's id and name, the fields of that folder's details, and
   * children that mirror the raw children one for one, in order.
   */
  ghost predicate MirrorsFolder(o: SimplifiedFolder, f: FolderTree.RawFolder, resource: string,
                                fetch: string -> Option<FolderDetail>)
    decreases f
  {
    var d := fetch(FolderDetailEndpoint(resource, f.id));
    && o.id == f.id && o.name == f.name
    && d.Some?
    && o.description == d.value.description && o.createdBy == d.value.createdBy && o.createdOn == d.value.createdOn
    && o.modifiedBy == d.value.lastModifiedBy && o.modifiedOn == d.value.lastModifiedOn
    && MirrorsForest(o.children, f.children, resource, fetch)
  }

  ghost predicate MirrorsForest(os: seq<SimplifiedFolder>, fs: seq<FolderTree.RawFolder>, resource: string,
                                fetch: string -> Option<FolderDetail>)
    decreases fs
  {
    |os| == |fs| && forall i :: 0 <= i < |fs| ==> MirrorsFolder(os[i], fs[i], resource, fetch)
  }

  /** A detailed folder mirrors the raw one: same shape, raw id and name, detailed fields. */
  lemma {:induction false} DetailedFolderMirrors(f: FolderTree.RawFolder, resource: string,
                                                 fetch: string -> Option<FolderDetail>)
    ensures DetailedFolder(f, resource, fetch).Some? ==>
              MirrorsFolder(DetailedFolder(f, resource, fetch).value, f, resource, fetch)
    decreases f, 1
  {
    DetailedFoldersMirror(f.children, resource, fetch);
  }

  /**
   * `getDetailedFolders` preserves the shape of the forest: one answer per
   * raw folder, in order, children detailed recursively, id and name from
   * the raw node and the rest from its details.
   */
  lemma {:induction false} DetailedFoldersMirror(fs: seq<FolderTree.RawFolder>, resource: string,
                                                 fetch: string -> Option<FolderDetail>)
    ensures DetailedFolders(fs, resource, fetch).Some? ==>
              MirrorsForest(DetailedFolders(fs, resource, fetch).value, fs, resource, fetch)
    decreases fs, 0
  {
    if fs != [] && DetailedFolders(fs, resource, fetch).Some? {
      var out := DetailedFolders(fs, resource, fetch).value;
      var rest := DetailedFolders(fs[1..], resource, fetch).value;
      DetailedFolderMirrors(fs[0], resource, fetch);
      DetailedFoldersMirror(fs[1..], resource, fetch);
      forall i | 0 <= i < |fs|
        ensures MirrorsFolder(out[i], fs[i], resource, fetch)
      {
        if i > 0 {
          assert out[i] == rest[i - 1] && fs[i] == fs[1..][i - 1];
        }
      }
    }
  }

  // ---------------------------------------------------------------------
  // list_projects
  // ---------------------------------------------------------------------

  /** What the older listings answer: a text when nothing was found, the shaped items otherwise. */
  datatype Answer<T> = Text(message: string) | Items(items: seq<T>)

  /** A listed project as the older tool reports it: label and description copied as given. */
  datatype LegacyProjectView = LegacyProjectView(id: int, name: string, projectLabel: Option<string>, description: Option<string>)

  /** Id and name from the listing page, label and description from the details, unconditionally. */
  function LegacyProjectViewOf(listed: Item, d: ProjectTools.ProjectDetails): (v: LegacyProjectView)
    ensures v.id == listed.id && v.name == listed.name && v.projectLabel == d.projectLabel && v.description == d.description
  {
    LegacyProjectView(listed.id, listed.name, d.projectLabel, d.description)
  }

  /**
   * The newer listing reports a project as the older one does, except that
   * an empty label or description is left out; the two agree exactly when
   * neither field is the empty string.
   */
  lemma NewerProjectViewIsRestriction(listed: Item, d: ProjectTools.ProjectDetails)
    ensures var o := LegacyProjectViewOf(listed, d);
            ProjectTools.ProjectViewOf(listed, d)
              == ProjectTools.ProjectView(o.id, o.name, KeepTruthy(o.projectLabel), KeepTruthy(o.description))
    ensures var o := LegacyProjectViewOf(listed, d);
            var n := ProjectTools.ProjectViewOf(listed, d);
            (n.projectLabel == o.projectLabel && n.description == o.description)
              <==> d.projectLabel != Some("") && d.description != Some("")
  {
  }

  /**
   * Every listed item is kept, a page without `projects` contributes
   * nothing, and a `null` body ends the loop (`data?.` guards every read).
   */
  const LegacyProjectPolicy := Policy("projects", KeepAll, false, false)

  const NoProjectsMessage := "No projects found."

  /**
   * The older `list_projects` handler: the paging loop over the standard
   * projects; when it gathered nothing, the text "No projects found." and
   * no detail request; otherwise one details GET per listed project and
   * the shaped projects, in the order the pages listed them.
   */
  method LegacyListProjects<P>(store: Store<P>, server: string -> PageBody,
                               details: string -> ProjectTools.ProjectDetails, ghost bound: nat)
    returns (r: Option<Answer<LegacyProjectView>>)
    requires PagesBounded(server, ProjectTools.ProjectsBase, bound)
    modifies store`log
    ensures var run := Run(server, ProjectTools.ProjectsBase, LegacyProjectPolicy, store.failing, |old(store.log)|, 0, 1, bound);
            var endpoints := DetailTargets(run, ProjectTools.ProjectEndpoint);
            && store.log == old(store.log) + PageGets(ProjectTools.ProjectsBase, run.requests) + Gets(endpoints)
            && (r.Some? <==> run.items.Some? && AllOk(store.failing, |old(store.log)| + run.requests, |endpoints|))
            && (r.Some? ==> r.value == if run.items.value == [] then Text(NoProjectsMessage)
                                       else Items(ShapeEach(run.items.value, ProjectTools.ProjectEndpoint, details, LegacyProjectViewOf)))
  {
    var found := FetchWithDetails(store, ProjectTools.ProjectsBase, LegacyProjectPolicy, server,
                                  ProjectTools.ProjectEndpoint, details, LegacyProjectViewOf, bound);
    r := if found.None? then None else if found.value == [] then Some(Text(NoProjectsMessage)) else Some(Items(found.value));
  }

  /**
   * A page that is `null` (or carries no `page`) ends the older project
   * listing quietly, where the newer one throws on a `null` body.
   */
  lemma NullEndsOlderListing(server: string -> PageBody, failing: set<nat>, pos: nat, bound: nat)
    requires PagesBounded(server, ProjectTools.ProjectsBase, bound)
    requires server(PageEndpoint(ProjectTools.ProjectsBase, 0)) == NullBody && pos !in failing
    ensures Run(server, ProjectTools.ProjectsBase, LegacyProjectPolicy, failing, pos, 0, 1, bound) == PagingRun(1, Some([]))
    ensures Run(server, ProjectTools.ProjectsBase, ProjectTools.ProjectPolicy, failing, pos, 0, 1, bound) == PagingRun(1, None)
  {
    RunFirstPage(server, ProjectTools.ProjectsBase, LegacyProjectPolicy, failing, pos, 0, 1, bound);
    RunFirstPage(server, ProjectTools.ProjectsBase, ProjectTools.ProjectPolicy, failing, pos, 0, 1, bound);
  }

  // ---------------------------------------------------------------------
  // get_test_case_folder_content
  // ---------------------------------------------------------------------

  /** A listed test case as the older tool reports it: every field copied as given. */
  datatype LegacyTestCaseView = LegacyTestCaseView(
    id: int, name: string, prerequisite: Option<string>, description: string,
    createdBy: string, createdOn: string, lastModifiedBy: Option<string>, lastModifiedOn: Option<string>)

  /** The older shaping: the details' fields copied as given, without reference or steps. */
  function LegacyTestCaseViewOf(listed: Item, d: TestCaseTools.TestCaseDetails): (v: LegacyTestCaseView)
    ensures v.id == d.id && v.name == d.name && v.prerequisite == d.prerequisite && v.description == d.description
    ensures v.createdBy == d.createdBy && v.createdOn == d.createdOn
    ensures v.lastModifiedBy == d.lastModifiedBy && v.lastModifiedOn == d.lastModifiedOn
  {
    LegacyTestCaseView(d.id, d.name, d.prerequisite, d.description, d.createdBy, d.createdOn,
                       d.lastModifiedBy, d.lastModifiedOn)
  }

  /**
   * The newer shaping reports the fields the older one shares with it as
   * the older one does, except that an empty prerequisite or last
   * modification field is left out.
   */
  lemma NewerTestCaseViewIsRestriction(listed: Item, d: TestCaseTools.TestCaseDetails)
    ensures var o := LegacyTestCaseViewOf(listed, d);
            var n := TestCaseTools.ViewOf(listed, d);
            && n.id == o.id && n.name == o.name && n.description == o.description
            && n.createdBy == o.createdBy && n.createdOn == o.createdOn
            && n.prerequisite == KeepTruthy(o.prerequisite)
            && n.lastModifiedBy == KeepTruthy(o.lastModifiedBy) && n.lastModifiedOn == KeepTruthy(o.lastModifiedOn)
  {
  }

  /** `test-case-folders/<folder_id>/content`: the folder id is required here. */
  function LegacyFolderBase(folderId: int): string {
    "test-case-folders/" + IntToString(folderId) + "/content?"
  }

  const NoTestCasesMessage := "No test cases found in the specified folder."

  /**
   * The older `get_test_case_folder_content` handler: the paging loop over
   * the folder's content under `content`; when it gathered no test case,
   * the text "No test cases found in the specified folder."; otherwise one
   * details GET per listed test case and the shaped test cases.
   */
  method LegacyGetTestCaseFolderContent<P>(store: Store<P>, folderId: int, server: string -> PageBody,
                                           details: string -> TestCaseTools.TestCaseDetails, ghost bound: nat)
    returns (r: Option<Answer<LegacyTestCaseView>>)
    requires PagesBounded(server, LegacyFolderBase(folderId), bound)
    modifies store`log
    ensures var base := LegacyFolderBase(folderId);
            var run := Run(server, base, TestCaseTools.TestCasePolicy("content"), store.failing, |old(store.log)|, 0, 1, bound);
            var endpoints := DetailTargets(run, TestCaseTools.TestCaseEndpoint);
            && store.log == old(store.log) + PageGets(base, run.requests) + Gets(endpoints)
            && (r.Some? <==> run.items.Some? && AllOk(store.failing, |old(store.log)| + run.requests, |endpoints|))
            && (r.Some? ==> r.value == if run.items.value == [] then Text(NoTestCasesMessage)
                                       else Items(ShapeEach(run.items.value, TestCaseTools.TestCaseEndpoint, details, LegacyTestCaseViewOf)))
  {
    var found := FetchWithDetails(store, LegacyFolderBase(folderId), TestCaseTools.TestCasePolicy("content"), server,
                                  TestCaseTools.TestCaseEndpoint, details, LegacyTestCaseViewOf, bound);
    r := if found.None? then None else if found.value == [] then Some(Text(NoTestCasesMessage)) else Some(Items(found.value));
  }

  /**
   * The older listing of a folder reads the same pages, under the same key
   * and with the same filter, as the newer listing given that folder.
   */
  lemma LegacyFolderListingMatchesNewer(projectId: int, folderId: int)
    requires folderId != 0
    ensures TestCaseTools.TestCaseSource(projectId, Some(folderId)) == Source(LegacyFolderBase(folderId), "content")
  {
  }

  // ---------------------------------------------------------------------
  // create_test_cases and create_project
  // ---------------------------------------------------------------------

  /** A test case to create with the older tool: its steps are required. */
  datatype LegacyTestCaseInput = LegacyTestCaseInput(name: string, description: string, steps: seq<TestCaseTools.StepInput>)

  /**
   * The bodies the older `create_test_cases` posts: each test case at the
   * project's root, with its name, description and steps tagged
   * "action-step", and neither reference nor prerequisite.
   */
  function LegacyTestCasePayloads(cases: seq<LegacyTestCaseInput>, projectId: int)
    : (r: seq<TestCaseTools.TestCasePayload>)
    ensures |r| == |cases|
    ensures forall i :: 0 <= i < |cases| ==>
              && r[i].kind == "test-case" && r[i].name == cases[i].name && r[i].description == cases[i].description
              && r[i].reference == None && r[i].prerequisite == None
              && r[i].parentKind == "project" && r[i].parentId == projectId
              && |r[i].steps| == |cases[i].steps|
              && forall j :: 0 <= j < |cases[i].steps| ==>
                   r[i].steps[j] == TestCaseTools.PayloadStep("action-step", cases[i].steps[j].action, cases[i].steps[j].expectedResult)
  {
    seq(|cases|, i requires 0 <= i < |cases| =>
          TestCaseTools.TestCasePayload("test-case", cases[i].name, None, cases[i].description, None,
                                        "project", projectId, TestCaseTools.PayloadSteps(Some(cases[i].steps))))
  }

  /** The newer inputs the older test cases stand for: no reference, no prerequisite, the steps given. */
  function NewerInputs(cases: seq<LegacyTestCaseInput>): (r: seq<TestCaseTools.TestCaseInput>)
    ensures |r| == |cases|
    ensures forall i :: 0 <= i < |cases| ==>
              r[i] == TestCaseTools.TestCaseInput(cases[i].name, None, cases[i].description, None, Some(cases[i].steps))
  {
    seq(|cases|, i requires 0 <= i < |cases| =>
          TestCaseTools.TestCaseInput(cases[i].name, None, cases[i].description, None, Some(cases[i].steps)))
  }

  /**
   * The older bodies are the newer tool's bodies for the same test cases
   * given without reference, prerequisite or parent folder.
   */
  lemma LegacyTestCasePayloadsMatchNewer(cases: seq<LegacyTestCaseInput>, projectId: int)
    ensures LegacyTestCasePayloads(cases, projectId) == TestCaseTools.TestCasePayloads(NewerInputs(cases), projectId, None)
  {
    var older := LegacyTestCasePayloads(cases, projectId);
    var newer := TestCaseTools.TestCasePayloads(NewerInputs(cases), projectId, None);
    forall i | 0 <= i < |cases|
      ensures older[i] == newer[i]
    {
      assert newer[i].steps == TestCaseTools.PayloadSteps(Some(cases[i].steps));
    }
  }

  /**
   * The newer `create_test_cases` posts a prefix of what the older one
   * posts for the same test cases, and all of it when no POST fails.
   */
  lemma LegacyCreateCoversNewer(cases: seq<LegacyTestCaseInput>, projectId: int, failing: set<nat>, pos: nat)
    ensures var newer := TestCaseTools.TestCasePayloads(NewerInputs(cases), projectId, None);
            var older := Posts("test-cases", LegacyTestCasePayloads(cases, projectId));
            && Posts("test-cases", newer[..Issued(failing, pos, |cases|)]) <= older
            && (AllOk(failing, pos, |cases|) ==> Posts("test-cases", newer[..Issued(failing, pos, |cases|)]) == older)
  {
    LegacyTestCasePayloadsMatchNewer(cases, projectId);
    if AllOk(failing, pos, |cases|) {
      IssuedAllOk(failing, pos, |cases|);
    }
  }

  /**
   * The older `create_test_cases` handler: `Promise.all` of one POST per
   * test case, every one of them issued; it answers (with no content)
   * exactly when none failed.
   */
  method LegacyCreateTestCases(store: Store<TestCaseTools.TestCasePayload>, projectId: int,
                               cases: seq<LegacyTestCaseInput>)
    returns (ok: bool)
    modifies store
    ensures store.log == old(store.log) + Posts("test-cases", LegacyTestCasePayloads(cases, projectId))
    ensures ok <==> AllOk(store.failing, |old(store.log)|, |cases|)
    ensures store.nextId == old(store.nextId) + CountOk(store.failing, |old(store.log)|, |cases|)
  {
    var created := store.PostAll("test-cases", LegacyTestCasePayloads(cases, projectId));
    ok := created.Some?;
  }

  /** `Project created successfully with ID: ${id}` */
  function ProjectCreatedMessage(id: int): string {
    "Project created successfully with ID: " + IntToString(id)
  }

  /** Different new projects are announced with different messages. */
  lemma ProjectCreatedMessagesDiffer(a: int, b: int)
    requires a != b
    ensures ProjectCreatedMessage(a) != ProjectCreatedMessage(b)
  {
    if ProjectCreatedMessage(a) == ProjectCreatedMessage(b) {
      FramedIntInjective("Project created successfully with ID: ", "", a, b);
    }
  }

  /**
   * The older `create_project` handler: the same POST as the newer one,
   * answered with a text naming the new project's id.
   */
  method LegacyCreateProject(store: Store<ProjectTools.ProjectPayload>, name: string, projectLabel: Option<string>,
                             description: Option<string>)
    returns (r: Option<string>)
    modifies store
    ensures store.log == old(store.log) + [Request(POST, "projects", Some(ProjectTools.ProjectPayload("project", name, projectLabel, description)))]
    ensures |old(store.log)| in store.failing ==> r == None && store.nextId == old(store.nextId)
    ensures |old(store.log)| !in store.failing ==>
              r == Some(ProjectCreatedMessage(old(store.nextId))) && store.nextId == old(store.nextId) + 1
  {
    var id := ProjectTools.CreateProject(store, name, projectLabel, description);
    r := if id.Some? then Some(ProjectCreatedMessage(id.value)) else None;
  }
}
