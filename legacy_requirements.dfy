/**
 * The older requirement handlers: the same three tools as `RequirementTools`
 * with a different listing endpoint, a richer shaping of each requirement
 * and a creation that reports what the server answered.
 */
module LegacyRequirements {
  import opened Wrappers
  import opened JsValues
  import opened SquashStore
  import opened Paging
  import FolderTree
  import FolderCreation
  import Deletion
  import RequirementTools

  /** A listed requirement as the older tool reports it; None is an `undefined` field. */
  datatype LegacyRequirementView = LegacyRequirementView(
    id: int, name: string, reference: Option<string>, version: int, description: string,
    createdBy: string, createdOn: string, lastModifiedBy: string, lastModifiedOn: string,
    criticality: string, category: Option<string>, status: string)

  /**
   * The older shaping: id and name from the requirement, everything else
   * from its current version, copied as given, the category read through
   * `category?.code` (undefined when the version has no category). The
   * listed item only served to find the details.
   */
  function LegacyViewOf(listed: Item, d: RequirementTools.RequirementDetails): (v: LegacyRequirementView)
    ensures v.id == d.id && v.name == d.name
    ensures var cv := d.currentVersion;
            && v.reference == cv.reference && v.version == cv.versionNumber && v.description == cv.description
            && v.createdBy == cv.createdBy && v.createdOn == cv.createdOn
            && v.lastModifiedBy == cv.lastModifiedBy && v.lastModifiedOn == cv.lastModifiedOn
            && v.criticality == cv.criticality && v.status == cv.status
            && (v.category.Some? <==> cv.category.Some?)
            && (cv.category.Some? ==> v.category == Some(cv.category.value.code))
  {
    var cv := d.currentVersion;
    LegacyRequirementView(d.id, d.name, cv.reference, cv.versionNumber, cv.description,
                          cv.createdBy, cv.createdOn, cv.lastModifiedBy, cv.lastModifiedOn,
                          cv.criticality, if cv.category.Some? then Some(cv.category.value.code) else None,
                          cv.status)
  }

  /**
   * The older shaping keeps everything the newer one reports: the newer
   * answer is the older one with the version attributes dropped and a falsy
   * reference left out.
   */
  lemma NewerViewIsRestriction(listed: Item, d: RequirementTools.RequirementDetails)
    ensures var o := LegacyViewOf(listed, d);
            RequirementTools.ViewOf(listed, d) ==
              RequirementTools.RequirementView(o.id, o.name, KeepTruthy(o.reference), o.description,
                                               o.createdBy, o.createdOn, o.lastModifiedBy, o.lastModifiedOn)
  {
  }

  /**
   * The older listing always reads `requirement-folders/<folder_id>/content`
   * under the key `content`, whether or not a folder id is given: without
   * one the id is interpolated as `undefined`.
   */
  function LegacySource(folderId: Option<int>): Source {
    Source("requirement-folders/" + OptIntToString(folderId) + "/content?", "content")
  }

  /**
   * Without a folder id the older listing ignores the project: every
   * project is listed at the same endpoint `requirement-folders/undefined/content`,
   * where the newer listing reads each project's own library root.
   */
  lemma LegacyRootListingIgnoresProject(a: int, b: int)
    requires a != b
    ensures LegacySource(None).base == "requirement-folders/" + "undefined" + "/content?"
    ensures LegacySource(None).base != RequirementTools.RequirementSource(a, None).base
    ensures RequirementTools.RequirementSource(a, None).base != RequirementTools.RequirementSource(b, None).base
  {
    RequirementTools.RequirementRootsFollowProject(a, b);
    var legacy := LegacySource(None).base;
    var newer := RequirementTools.RequirementSource(a, None).base;
    assert legacy[0] == 'r';
    assert newer[0] == 'p';
  }

  /** The older listing stops at a page without `content`; a null body ends the loop. */
  function LegacyPolicy(): Policy {
    RequirementTools.RequirementPolicy("content")
  }

  /**
   * The older `get_requirement_folder_content` handler: the paging loop over
   * `requirement-folders/<folder_id>/content`, one details GET per listed
   * requirement, then the older shaping, in the order the pages listed them.
   */
  method LegacyGetRequirementFolderContent<P>(store: Store<P>, folderId: Option<int>,
                                              server: string -> PageBody,
                                              details: string -> RequirementTools.RequirementDetails, ghost bound: nat)
    returns (r: Option<seq<LegacyRequirementView>>)
    requires PagesBounded(server, LegacySource(folderId).base, bound)
    modifies store`log
    ensures FetchedWithDetails(old(store.log), store.log, store.failing, r, server, LegacySource(folderId).base,
                               LegacyPolicy(), RequirementTools.RequirementEndpoint, details, LegacyViewOf, bound)
  {
    var base := LegacySource(folderId).base;
    r := FetchWithDetails(store, base, LegacyPolicy(), server, RequirementTools.RequirementEndpoint, details, LegacyViewOf, bound);
  }

  /** A requirement to create with the older tool: it has no reference. */
  datatype LegacyRequirementInput = LegacyRequirementInput(name: string, description: string)

  /**
   * The bodies the older `create_requirements` posts: the newer payload of
   * each requirement taken without a reference.
   */
  function LegacyPayloads(reqs: seq<LegacyRequirementInput>, projectId: int, parentFolderId: Option<int>)
    : (r: seq<RequirementTools.RequirementPayload>)
    ensures |r| == |reqs|
    ensures forall i :: 0 <= i < |reqs| ==>
              && r[i].currentVersion.reference == None
              && r[i].currentVersion.name == reqs[i].name
              && r[i].currentVersion.description == reqs[i].description
    ensures var inputs := seq(|reqs|, i requires 0 <= i < |reqs| =>
                                RequirementTools.RequirementInput(reqs[i].name, None, reqs[i].description));
            r == RequirementTools.RequirementPayloads(inputs, projectId, parentFolderId)
  {
    var kind := FolderCreation.ParentTypeOf(FolderTree.RequirementFolder, parentFolderId);
    var id := FolderCreation.ParentIdOf(projectId, parentFolderId);
    seq(|reqs|, i requires 0 <= i < |reqs| =>
          RequirementTools.RequirementPayloadOf(
            RequirementTools.RequirementInput(reqs[i].name, None, reqs[i].description), kind, id))
  }

  /**
   * The older `create_requirements` handler: the requirements are posted one
   * after the other, the first failure ending the handler; each is reported
   * with the id and the name from the server's answer to its POST.
   */
  method LegacyCreateRequirements(store: Store<RequirementTools.RequirementPayload>, projectId: int,
                                  parentFolderId: Option<int>, reqs: seq<LegacyRequirementInput>)
    returns (r: Option<seq<Created>>)
    modifies store
    ensures var bodies := LegacyPayloads(reqs, projectId, parentFolderId);
            && store.log == old(store.log) + Posts("requirements", bodies[..Issued(store.failing, |old(store.log)|, |reqs|)])
            && (r.Some? <==> AllOk(store.failing, |old(store.log)|, |reqs|))
            && (r.Some? ==> |r.value| == |reqs| &&
                            forall i :: 0 <= i < |reqs| ==>
                              r.value[i] == Created(old(store.nextId) + i, store.replyName(bodies[i])))
    ensures r.Some? ==> store.nextId == old(store.nextId) + |reqs|
    ensures r.None? ==> store.nextId == old(store.nextId) + Issued(store.failing, |old(store.log)|, |reqs|) - 1
  {
    var bodies := LegacyPayloads(reqs, projectId, parentFolderId);
    r := store.PostEach("requirements", bodies);
  }

  /** The older `delete_requirement` handler: the same request and message as the newer one. */
  method LegacyDeleteRequirement<P>(store: Store<P>, id: int) returns (r: Option<string>)
    modifies store`log
    ensures store.log == old(store.log) + [Request(DELETE, RequirementTools.RequirementEndpoint(id), None)]
    ensures r == if |old(store.log)| in store.failing then None else Some(Deletion.DeletedMessage("Requirement", id))
  {
    r := RequirementTools.DeleteRequirement(store, id);
  }
}
