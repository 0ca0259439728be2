/**
 * The requirement tools: list the requirements of a folder (or of a
 * project's library root) with the details of their current version,
 * create requirements one after the other, and delete one.
 */
module RequirementTools {
  import opened Wrappers
  import opened JsValues
  import opened SquashStore
  import opened Paging
  import FolderTree
  import FolderCreation
  import Deletion

  /** `current_version.category` */
  datatype Category = Category(code: string)

  /** The `current_version` of a requirement as the server details it. */
  datatype RequirementVersion = RequirementVersion(
    createdBy: string, createdOn: string, lastModifiedBy: string, lastModifiedOn: string,
    description: string, reference: Option<string>, versionNumber: int,
    criticality: string, category: Option<Category>, status: string)

  /** The body of `GET requirements/<id>`. */
  datatype RequirementDetails = RequirementDetails(id: int, name: string, currentVersion: RequirementVersion)

  /** A listed requirement as the tool reports it; a None reference is a key left out of the object. */
  datatype RequirementView = RequirementView(
    id: int, name: string, reference: Option<string>, description: string,
    createdBy: string, createdOn: string, lastModifiedBy: string, lastModifiedOn: string)

  /**
   * The shaping of one requirement: id and name from the requirement, the
   * other fields from its current version, the reference only when it is a
   * non-empty string. The listed item only served to find the details.
   */
  function ViewOf(listed: Item, d: RequirementDetails): (v: RequirementView)
    ensures v.id == d.id && v.name == d.name
    ensures var cv := d.currentVersion;
            && v.description == cv.description
            && v.createdBy == cv.createdBy && v.createdOn == cv.createdOn
            && v.lastModifiedBy == cv.lastModifiedBy && v.lastModifiedOn == cv.lastModifiedOn
            && ReportedIfTruthy(v.reference, cv.reference)
  {
    var cv := d.currentVersion;
    RequirementView(d.id, d.name, KeepTruthy(cv.reference), cv.description,
                    cv.createdBy, cv.createdOn, cv.lastModifiedBy, cv.lastModifiedOn)
  }

  /**
   * What the shaping drops: the version number, criticality, category and
   * status never reach the answer, and a falsy reference reads as no
   * reference at all.
   */
  lemma ViewIgnoresVersionAttributes(listed: Item, d: RequirementDetails, number: int, criticality: string,
                                     category: Option<Category>, status: string)
    ensures var cv := d.currentVersion;
            var e := d.(currentVersion := cv.(versionNumber := number, criticality := criticality,
                                              category := category, status := status,
                                              reference := KeepTruthy(cv.reference)));
            ViewOf(listed, e) == ViewOf(listed, d)
  {
  }

  /** The listing reads requirements of this `_type` only. */
  const RequirementKind := "requirement"

  /** Requirement listings stop at a page without the key; a null body ends the loop. */
  function RequirementPolicy(key: string): Policy {
    Policy(key, KeepKind(RequirementKind), true, false)
  }

  /** Where the listing reads: `requirement-folders/<id>/content` or the project's `requirements-library/content`. */
  function RequirementSource(projectId: int, folderId: Option<int>): Source {
    ContentSource("requirement-folders", "requirements-library", "requirement-library", projectId, folderId)
  }

  /**
   * Without a folder the listing reads the root of the given project's
   * library: different projects are listed at different endpoints, and
   * the items are read under that library's key, not under `content`.
   */
  lemma RequirementRootsFollowProject(a: int, b: int)
    requires a != b
    ensures RequirementSource(a, None).base != RequirementSource(b, None).base
    ensures RequirementSource(a, None).key != "content"
  {
    ContentRootsDistinct("requirement-folders", "requirements-library", "requirement-library", a, b);
    ContentKeyFollowsSource("requirement-folders", "requirements-library", "requirement-library", a, None);
  }

  /** `requirements/<id>` */
  function RequirementEndpoint(id: int): string {
    Deletion.ItemEndpoint("requirements", id)
  }

  /**
   * The `get_requirement_folder_content` handler: the paging loop over the
   * chosen source, one details GET per listed requirement, then the shaping
   * of each, in the order the pages listed them.
   */
  method GetRequirementFolderContent<P>(store: Store<P>, projectId: int, folderId: Option<int>,
                                        server: string -> PageBody, details: string -> RequirementDetails,
                                        ghost bound: nat)
    returns (r: Option<seq<RequirementView>>)
    requires PagesBounded(server, RequirementSource(projectId, folderId).base, bound)
    modifies store`log
    ensures var src := RequirementSource(projectId, folderId);
            FetchedWithDetails(old(store.log), store.log, store.failing, r, server, src.base, RequirementPolicy(src.key),
                               RequirementEndpoint, details, ViewOf, bound)
  {
    var src := RequirementSource(projectId, folderId);
    var policy := RequirementPolicy(src.key);
    r := FetchWithDetails(store, src.base, policy, server, RequirementEndpoint, details, ViewOf, bound);
  }

  /** A requirement to create. */
  datatype RequirementInput = RequirementInput(name: string, reference: Option<string>, description: string)

  /** The `current_version` posted for a new requirement. */
  datatype VersionPayload = VersionPayload(
    kind: string, reference: Option<string>, name: string, criticality: string,
    categoryCode: string, status: string, description: string)

  /** The body of `POST requirements`. */
  datatype RequirementPayload = RequirementPayload(kind: string, currentVersion: VersionPayload,
                                                   parentKind: string, parentId: int)

  /** What the creation reports for each requirement. */
  datatype CreatedRequirement = CreatedRequirement(id: int, name: string, reference: Option<string>)

  /** The body posted for one requirement: a fresh, undecided version under the resolved parent. */
  function RequirementPayloadOf(req: RequirementInput, parentKind: string, parentId: int): RequirementPayload {
    RequirementPayload(
      RequirementKind,
      VersionPayload("requirement-version", req.reference, req.name, "UNDEFINED", "CAT_UNDEFINED",
                     "WORK_IN_PROGRESS", req.description),
      parentKind, parentId)
  }

  /**
   * The bodies the `create_requirements` handler posts: one per requirement,
   * in order, each a "requirement" whose current version carries the
   * requirement's name, description and reference (as given), criticality
   * UNDEFINED, category CAT_UNDEFINED and status WORK_IN_PROGRESS, all under
   * the same resolved parent.
   */
  function RequirementPayloads(reqs: seq<RequirementInput>, projectId: int, parentFolderId: Option<int>)
    : (r: seq<RequirementPayload>)
    ensures |r| == |reqs|
    ensures forall i :: 0 <= i < |reqs| ==>
              var v := r[i].currentVersion;
              && r[i].kind == "requirement" && v.kind == "requirement-version"
              && v.name == reqs[i].name && v.description == reqs[i].description && v.reference == reqs[i].reference
              && v.criticality == "UNDEFINED" && v.categoryCode == "CAT_UNDEFINED" && v.status == "WORK_IN_PROGRESS"
              && r[i].parentKind == FolderCreation.ParentTypeOf(FolderTree.RequirementFolder, parentFolderId)
              && r[i].parentId == FolderCreation.ParentIdOf(projectId, parentFolderId)
  {
    var kind := FolderCreation.ParentTypeOf(FolderTree.RequirementFolder, parentFolderId);
    var id := FolderCreation.ParentIdOf(projectId, parentFolderId);
    seq(|reqs|, i requires 0 <= i < |reqs| => RequirementPayloadOf(reqs[i], kind, id))
  }

  function CreatedOf(req: RequirementInput, id: int): CreatedRequirement {
    CreatedRequirement(id, req.name, KeepTruthy(req.reference))
  }

  /**
   * The `create_requirements` handler: the requirements are posted one after
   * the other to `requirements`, the first failure ending the handler. On
   * success each is reported with the id the server gave it, the name that
   * was posted for it and its reference when that is a non-empty string.
   */
  method CreateRequirements(store: Store<RequirementPayload>, projectId: int, parentFolderId: Option<int>,
                            reqs: seq<RequirementInput>)
    returns (r: Option<seq<CreatedRequirement>>)
    modifies store
    ensures var bodies := RequirementPayloads(reqs, projectId, parentFolderId);
            && store.log == old(store.log) + Posts("requirements", bodies[..Issued(store.failing, |old(store.log)|, |reqs|)])
            && (r.Some? <==> AllOk(store.failing, |old(store.log)|, |reqs|))
            && (r.Some? ==> |r.value| == |reqs| &&
                            forall i :: 0 <= i < |reqs| ==>
                              && r.value[i].id == old(store.nextId) + i
                              && r.value[i].name == bodies[i].currentVersion.name
                              && (r.value[i].reference.Some? <==> Truthy(bodies[i].currentVersion.reference))
                              && (r.value[i].reference.Some? ==> r.value[i].reference == bodies[i].currentVersion.reference))
    ensures r.Some? ==> store.nextId == old(store.nextId) + |reqs|
    ensures r.None? ==> store.nextId == old(store.nextId) + Issued(store.failing, |old(store.log)|, |reqs|) - 1
  {
    var bodies := RequirementPayloads(reqs, projectId, parentFolderId);
    var created := store.PostEach("requirements", bodies);
    if created.Some? {
      r := Some(seq(|reqs|, i requires 0 <= i < |reqs| => CreatedOf(reqs[i], created.value[i].id)));
    } else {
      r := None;
    }
  }

  /** The `delete_requirement` handler. */
  method DeleteRequirement<P>(store: Store<P>, id: int) returns (r: Option<string>)
    modifies store`log
    ensures store.log == old(store.log) + [Request(DELETE, RequirementEndpoint(id), None)]
    ensures r == if |old(store.log)| in store.failing then None else Some(Deletion.DeletedMessage("Requirement", id))
  {
    r := Deletion.DeleteById(store, "requirements", "Requirement", id);
  }
}
