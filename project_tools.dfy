/**
 * The project tools: list the standard projects with their label and
 * description, create a project, delete one.
 */
module ProjectTools {
  import opened Wrappers
  import opened JsValues
  import opened SquashStore
  import opened Paging
  import Deletion

  /** The part of `GET projects/<id>` the listing reads. */
  datatype ProjectDetails = ProjectDetails(projectLabel: Option<string>, description: Option<string>)

  /** A listed project as the tool reports it; None is a key left out of the object. */
  datatype ProjectView = ProjectView(id: int, name: string, projectLabel: Option<string>, description: Option<string>)

  /**
   * The shaping of one project: id and name from the listing page, label
   * and description from the details, each only when it is a non-empty
   * string.
   */
  function ProjectViewOf(listed: Item, d: ProjectDetails): (v: ProjectView)
    ensures v.id == listed.id && v.name == listed.name
    ensures ReportedIfTruthy(v.projectLabel, d.projectLabel) && ReportedIfTruthy(v.description, d.description)
  {
    ProjectView(listed.id, listed.name, KeepTruthy(d.projectLabel), KeepTruthy(d.description))
  }

  /** `projects?type=STANDARD&page=<n>&size=50` */
  const ProjectsBase := "projects?type=STANDARD&"

  /**
   * Every listed item is kept, a page without `projects` just contributes
   * nothing, and a `null` body throws (its `_embedded` is read unguarded).
   */
  const ProjectPolicy := Policy("projects", KeepAll, false, true)

  /** `projects/<id>` */
  function ProjectEndpoint(id: int): string {
    Deletion.ItemEndpoint("projects", id)
  }

  /**
   * The `list_projects` handler: the paging loop over the standard
   * projects, one details GET per listed project, then the shaping of each,
   * in the order the pages listed them.
   */
  method ListProjects<P>(store: Store<P>, server: string -> PageBody, details: string -> ProjectDetails, ghost bound: nat)
    returns (r: Option<seq<ProjectView>>)
    requires PagesBounded(server, ProjectsBase, bound)
    modifies store`log
    ensures FetchedWithDetails(old(store.log), store.log, store.failing, r, server, ProjectsBase, ProjectPolicy,
                               ProjectEndpoint, details, ProjectViewOf, bound)
  {
    r := FetchWithDetails(store, ProjectsBase, ProjectPolicy, server, ProjectEndpoint, details, ProjectViewOf, bound);
  }

  /**
   * Under this policy every page that carries `page` lets the loop go on,
   * with or without `projects`: only a missing `page` (or a failure or a
   * null body) ends it early.
   */
  lemma ProjectPagesNeedOnlyPage(body: PageBody)
    ensures Continues(body, ProjectPolicy) <==> body.PageBody? && body.page.Some?
    ensures PageItems(body, ProjectPolicy) == Listed(body, "projects").GetOr([])
  {
  }

  /** The body of `POST projects`: label and description as given (None is `undefined`). */
  datatype ProjectPayload = ProjectPayload(kind: string, name: string, projectLabel: Option<string>, description: Option<string>)

  /**
   * The `create_project` handler: one POST of a "project" carrying the
   * given name, label and description; the answer is the id the server
   * gave the new project.
   */
  method CreateProject(store: Store<ProjectPayload>, name: string, projectLabel: Option<string>, description: Option<string>)
    returns (r: Option<int>)
    modifies store
    ensures store.log == old(store.log) + [Request(POST, "projects", Some(ProjectPayload("project", name, projectLabel, description)))]
    ensures |old(store.log)| in store.failing ==> r == None && store.nextId == old(store.nextId)
    ensures |old(store.log)| !in store.failing ==> r == Some(old(store.nextId)) && store.nextId == old(store.nextId) + 1
  {
    var created := store.Post("projects", ProjectPayload("project", name, projectLabel, description));
    r := if created.Some? then Some(created.value.id) else None;
  }

  /** The `delete_project` handler. */
  method DeleteProject<P>(store: Store<P>, id: int) returns (r: Option<string>)
    modifies store`log
    ensures store.log == old(store.log) + [Request(DELETE, ProjectEndpoint(id), None)]
    ensures r == if |old(store.log)| in store.failing then None else Some(Deletion.DeletedMessage("Project", id))
  {
    r := Deletion.DeleteById(store, "projects", "Project", id);
  }
}
