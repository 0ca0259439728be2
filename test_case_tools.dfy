/**
 * The test case tools: list the test cases of a folder (or of a project's
 * library root) with their details, create test cases one after the other,
 * and delete one.
 */
module TestCaseTools {
  import opened Wrappers
  import opened JsValues
  import opened SquashStore
  import opened Paging
  import FolderTree
  import FolderCreation
  import Deletion

  /** A step as the server details it: its `_type` besides the action and the expected result. */
  datatype ServerStep = ServerStep(kind: string, action: string, expectedResult: string)

  /** The body of `GET test-cases/<id>`. */
  datatype TestCaseDetails = TestCaseDetails(
    id: int, name: string, reference: Option<string>, prerequisite: Option<string>,
    description: string, createdBy: string, createdOn: string,
    lastModifiedBy: Option<string>, lastModifiedOn: Option<string>, steps: seq<ServerStep>)

  /** A step as the tool reports it. */
  datatype StepView = StepView(action: string, expectedResult: string)

  /** A listed test case as the tool reports it; None is a key left out of the object. */
  datatype TestCaseView = TestCaseView(
    id: int, name: string, reference: Option<string>, prerequisite: Option<string>,
    description: string, createdBy: string, createdOn: string,
    lastModifiedBy: Option<string>, lastModifiedOn: Option<string>, steps: seq<StepView>)

  /** `steps.map(step => ({ action, expected_result }))` */
  function StepViews(steps: seq<ServerStep>): (r: seq<StepView>)
    ensures |r| == |steps|
    ensures forall i :: 0 <= i < |steps| ==> r[i] == StepView(steps[i].action, steps[i].expectedResult)
  {
    if steps == [] then [] else [StepView(steps[0].action, steps[0].expectedResult)] + StepViews(steps[1..])
  }

  /**
   * The shaping of one test case: id, name, description and the creation
   * fields copied, reference, prerequisite and the last modification fields
   * present exactly when the server gave a non-empty string, and the steps
   * reduced to their action and expected result, in order. The listed
   * item only served to find the details.
   */
  function ViewOf(listed: Item, d: TestCaseDetails): (v: TestCaseView)
    ensures v.id == d.id && v.name == d.name && v.description == d.description
    ensures v.createdBy == d.createdBy && v.createdOn == d.createdOn
    ensures ReportedIfTruthy(v.reference, d.reference) && ReportedIfTruthy(v.prerequisite, d.prerequisite)
    ensures ReportedIfTruthy(v.lastModifiedBy, d.lastModifiedBy) && ReportedIfTruthy(v.lastModifiedOn, d.lastModifiedOn)
    ensures |v.steps| == |d.steps|
    ensures forall i :: 0 <= i < |d.steps| ==>
              v.steps[i].action == d.steps[i].action && v.steps[i].expectedResult == d.steps[i].expectedResult
  {
    TestCaseView(d.id, d.name, KeepTruthy(d.reference), KeepTruthy(d.prerequisite), d.description,
                 d.createdBy, d.createdOn, KeepTruthy(d.lastModifiedBy), KeepTruthy(d.lastModifiedOn),
                 StepViews(d.steps))
  }

  /**
   * Two details are reported alike exactly when they agree on every field
   * the tool reports, with each optional field compared after dropping a
   * falsy value, and on their steps' actions and expected results: the
   * shaping loses nothing else.
   */
  lemma ViewLosesOnlyFalsyAndStepKinds(x: Item, d: TestCaseDetails, y: Item, e: TestCaseDetails)
    ensures ViewOf(x, d) == ViewOf(y, e) <==>
              && d.id == e.id && d.name == e.name && d.description == e.description
              && d.createdBy == e.createdBy && d.createdOn == e.createdOn
              && KeepTruthy(d.reference) == KeepTruthy(e.reference)
              && KeepTruthy(d.prerequisite) == KeepTruthy(e.prerequisite)
              && KeepTruthy(d.lastModifiedBy) == KeepTruthy(e.lastModifiedBy)
              && KeepTruthy(d.lastModifiedOn) == KeepTruthy(e.lastModifiedOn)
              && |d.steps| == |e.steps|
              && forall i :: 0 <= i < |d.steps| ==>
                   d.steps[i].action == e.steps[i].action && d.steps[i].expectedResult == e.steps[i].expectedResult
  {
    var u, w := StepViews(d.steps), StepViews(e.steps);
    if |d.steps| == |e.steps| && forall i :: 0 <= i < |d.steps| ==>
         d.steps[i].action == e.steps[i].action && d.steps[i].expectedResult == e.steps[i].expectedResult {
      assert u == w;
    }
    if u == w {
      forall i | 0 <= i < |d.steps|
        ensures d.steps[i].action == e.steps[i].action && d.steps[i].expectedResult == e.steps[i].expectedResult
      {
        assert u[i] == w[i];
      }
    }
  }

  /** The listing reads test cases of this `_type` only. */
  const TestCaseKind := "test-case"

  /** Test case listings stop at a page without the key; a null body ends the loop. */
  function TestCasePolicy(key: string): Policy {
    Policy(key, KeepKind(TestCaseKind), true, false)
  }

  /** Where the listing reads: `test-case-folders/<id>/content` or the project's `test-cases-library/content`. */
  function TestCaseSource(projectId: int, folderId: Option<int>): Source {
    ContentSource("test-case-folders", "test-cases-library", "test-case-library", projectId, folderId)
  }

  /** `test-cases/<id>` */
  function TestCaseEndpoint(id: int): string {
    Deletion.ItemEndpoint("test-cases", id)
  }

  /**
   * The `get_test_case_folder_content` handler: the paging loop over the
   * chosen source, one details GET per listed test case, then the shaping
   * of each. The answer lists the details of the gathered test cases, in
   * the order the pages listed them.
   */
  method GetTestCaseFolderContent<P>(store: Store<P>, projectId: int, folderId: Option<int>,
                                     server: string -> PageBody, details: string -> TestCaseDetails, ghost bound: nat)
    returns (r: Option<seq<TestCaseView>>)
    requires PagesBounded(server, TestCaseSource(projectId, folderId).base, bound)
    modifies store`log
    ensures var src := TestCaseSource(projectId, folderId);
            FetchedWithDetails(old(store.log), store.log, store.failing, r, server, src.base, TestCasePolicy(src.key),
                               TestCaseEndpoint, details, ViewOf, bound)
  {
    var src := TestCaseSource(projectId, folderId);
    r := FetchWithDetails(store, src.base, TestCasePolicy(src.key), server, TestCaseEndpoint, details, ViewOf, bound);
  }

  /** A step of a test case to create. */
  datatype StepInput = StepInput(action: string, expectedResult: string)

  /** A test case to create; an absent `steps` list is None. */
  datatype TestCaseInput = TestCaseInput(
    name: string, reference: Option<string>, description: string, prerequisite: Option<string>,
    steps: Option<seq<StepInput>>)

  datatype PayloadStep = PayloadStep(kind: string, action: string, expectedResult: string)

  /** The body of `POST test-cases`; a None reference is a key left out, a None prerequisite is `undefined`. */
  datatype TestCasePayload = TestCasePayload(
    kind: string, name: string, reference: Option<string>, description: string, prerequisite: Option<string>,
    parentKind: string, parentId: int, steps: seq<PayloadStep>)

  /** What the creation reports for each test case. */
  datatype CreatedTestCase = CreatedTestCase(id: int, name: string, reference: Option<string>)

  /** `tc.steps ? tc.steps.map(step => ({ _type: "action-step", ... })) : []` */
  function PayloadSteps(steps: Option<seq<StepInput>>): (r: seq<PayloadStep>)
    ensures steps.None? ==> r == []
    ensures steps.Some? ==>
              && |r| == |steps.value|
              && forall i :: 0 <= i < |r| ==>
                   r[i] == PayloadStep("action-step", steps.value[i].action, steps.value[i].expectedResult)
  {
    if steps.None? then []
    else seq(|steps.value|, i requires 0 <= i < |steps.value| =>
               PayloadStep("action-step", steps.value[i].action, steps.value[i].expectedResult))
  }

  /** The body posted for one test case, under the resolved parent. */
  function TestCasePayloadOf(tc: TestCaseInput, parentKind: string, parentId: int): TestCasePayload {
    TestCasePayload(TestCaseKind, tc.name, KeepTruthy(tc.reference), tc.description, tc.prerequisite,
                    parentKind, parentId, PayloadSteps(tc.steps))
  }

  /**
   * The bodies the `create_test_cases` handler posts: one per test case, in
   * order, each of `_type` "test-case", carrying the test case's name,
   * description, prerequisite and (when truthy) reference, the same parent
   * for all, and its steps as action steps.
   */
  function TestCasePayloads(cases: seq<TestCaseInput>, projectId: int, parentFolderId: Option<int>)
    : (r: seq<TestCasePayload>)
    ensures |r| == |cases|
    ensures forall i :: 0 <= i < |cases| ==>
              && r[i].kind == "test-case" && r[i].name == cases[i].name
              && r[i].description == cases[i].description && r[i].prerequisite == cases[i].prerequisite
              && ReportedIfTruthy(r[i].reference, cases[i].reference)
              && r[i].parentKind == FolderCreation.ParentTypeOf(FolderTree.TestCaseFolder, parentFolderId)
              && r[i].parentId == FolderCreation.ParentIdOf(projectId, parentFolderId)
              && r[i].steps == PayloadSteps(cases[i].steps)
  {
    var kind := FolderCreation.ParentTypeOf(FolderTree.TestCaseFolder, parentFolderId);
    var id := FolderCreation.ParentIdOf(projectId, parentFolderId);
    seq(|cases|, i requires 0 <= i < |cases| => TestCasePayloadOf(cases[i], kind, id))
  }

  /** What is reported for a test case once created with the given id. */
  function CreatedOf(tc: TestCaseInput, id: int): CreatedTestCase {
    CreatedTestCase(id, tc.name, KeepTruthy(tc.reference))
  }

  /**
   * The `create_test_cases` handler: the test cases are posted one after
   * the other to `test-cases`, the first failure ending the handler. On
   * success each test case is reported with the id the server gave it and
   * the name and reference that were posted for it.
   */
  method CreateTestCases(store: Store<TestCasePayload>, projectId: int, parentFolderId: Option<int>,
                         cases: seq<TestCaseInput>)
    returns (r: Option<seq<CreatedTestCase>>)
    modifies store
    ensures var bodies := TestCasePayloads(cases, projectId, parentFolderId);
            && store.log == old(store.log) + Posts("test-cases", bodies[..Issued(store.failing, |old(store.log)|, |cases|)])
            && (r.Some? <==> AllOk(store.failing, |old(store.log)|, |cases|))
            && (r.Some? ==> |r.value| == |cases| &&
                            forall i :: 0 <= i < |cases| ==>
                              && r.value[i].id == old(store.nextId) + i
                              && r.value[i].name == bodies[i].name
                              && r.value[i].reference == bodies[i].reference)
    ensures r.Some? ==> store.nextId == old(store.nextId) + |cases|
    ensures r.None? ==> store.nextId == old(store.nextId) + Issued(store.failing, |old(store.log)|, |cases|) - 1
  {
    var bodies := TestCasePayloads(cases, projectId, parentFolderId);
    var created := store.PostEach("test-cases", bodies);
    if created.Some? {
      r := Some(seq(|cases|, i requires 0 <= i < |cases| => CreatedOf(cases[i], created.value[i].id)));
    } else {
      r := None;
    }
  }

  /** The `delete_test_case` handler. */
  method DeleteTestCase<P>(store: Store<P>, id: int) returns (r: Option<string>)
    modifies store`log
    ensures store.log == old(store.log) + [Request(DELETE, TestCaseEndpoint(id), None)]
    ensures r == if |old(store.log)| in store.failing then None else Some(Deletion.DeletedMessage("Test case", id))
  {
    r := Deletion.DeleteById(store, "test-cases", "Test case", id);
  }
}
