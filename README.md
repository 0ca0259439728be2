# SquashTM MCP adapter — a Dafny model

This project models the core of an MCP server that exposes the SquashTM test
management REST API as tools, plus the small JSON-RPC client of its
documentation generator. It covers:

- **Folder trees** (`src/folder_tools.ts`). The server's raw project tree is
  flattened to the ids of one folder kind. The adapter fetches each folder's
  details and projects them onto a flat record. It then rebuilds the forest:
  a record is a root when it names no parent, or names a parent that is not
  among the records. The older server (`src/index.ts`) has a nested variant,
  `getDetailedFolders`.
- **Folder creation**. A requested folder structure is posted depth-first,
  one folder at a time. Each child goes under the id the server has just
  given its parent, and the first failing POST aborts the whole creation.
- **Paginated listings**. Test cases, requirements and projects share one
  paging loop. It follows the `totalPages` the server reports, keeps the
  items of the wanted `_type` (every item for projects), and stops early on
  a missing page block or, for test cases and requirements, a missing
  listing key. One details GET per listed item follows, and each
  item is shaped into the answer. The `Paging` module models that loop once.
  Each handler is that loop with its own endpoint, key, filter and shaping.
- **Create and delete handlers** for test cases, requirements, projects and
  folders. The newer tools (`test_case_tools.ts`, `requirement_tools.ts`,
  `project_tools.ts`) are modelled next to the older ones (`requirements.ts`,
  `index.ts`). Lemmas relate the older requirement view, payloads and root
  listing, the older project and test-case views, the older test-case
  payloads and POSTs, the older folder listing and the older project
  listing's `null` first page to their newer counterparts.
- **The documentation generator** (`src-doc-gen/mcp-doc-generator.ts`):
  - the type label of a JSON schema;
  - the parameter rows listed for a schema's nested properties;
  - the JSON-RPC client's line framing and answer dispatch;
  - the client's request id counter.

The REST server is modelled as a `SquashStore.Store`:
- it logs every request it receives, in order;
- it hands out consecutive ids to successful POSTs;
- a request fails (the call throws) exactly when its log position is in the
  store's `failing` set.

GET answers come from a function of the endpoint that the caller passes in.
Every handler's contract therefore states:
- the exact sequence of requests it issues;
- when it fails;
- what it answers in terms of those server answers.

JavaScript truthiness is written out in `JsValues`. An optional string
counts only when it is present and non-empty. An optional id counts only
when it is present and non-zero. The source's `x || y` and `x ? a : b` on
ids and strings follow this rule.

The folder-tree rebuild is imperative (`FolderTree.BuildFolderTree`):
- node k is the node made for record k, held in an `array`;
- `children[k]` and `roots` list node positions;
- an id that occurs twice keeps the node of its last record, as a `Map.set`
  overwrite does.

The JSON-RPC client is a class whose methods update its buffer, request id
counter and pending set in place.

## Model

| member | source | states |
|---|---|---|
| SquashStore.Store.Get | src/utils.ts:147-218 | one GET is logged; the answer is the server's body for the endpoint unless that request fails |
| SquashStore.Store.Post | src/utils.ts:147-218 | one POST is logged; a successful one yields the next fresh id and the name the server reports, and advances the id counter by one |
| SquashStore.Store.Delete | src/utils.ts:147-218 | one DELETE is logged; it succeeds exactly when that request does not fail |
| SquashStore.Store.PostEach | src/test_case_tools.ts:153-183 | a sequential `for … await` of POSTs: the bodies are posted in order up to and including the first failing one; it succeeds iff none fails, and then the k-th body got id first+k |
| SquashStore.Store.PostAll | src/index.ts:372-391 | `Promise.all` of POSTs: every body is posted in order; it succeeds iff none fails; the id counter advances by the number of successful POSTs |
| SquashStore.Store.GetAll | src/folder_tools.ts:205 | `Promise.all` of GETs: every endpoint is requested in order; it succeeds iff none fails, and then answers each endpoint's body in order |
| SquashStore.IssuedAllOk | src/test_case_tools.ts:153-183 | when no request of a sequential loop fails, all n are issued |
| SquashStore.IssuedFirstFailure | src/test_case_tools.ts:153-183 | when request i is the first to fail, exactly i+1 requests are issued and the loop as a whole fails |
| Deletion.DeleteById | src/test_case_tools.ts:192-209 | one DELETE at `<resource>/<id>`; on success the message `<Noun> <id> deleted successfully`, on failure none |
| Deletion.DeleteDistinguishesIds | src/test_case_tools.ts:197-202 | different ids give different DELETE endpoints and different confirmation messages |
| JsValues.IntToStringInjective | src/folder_tools.ts:193 | the decimal rendering of ids is injective, so endpoints built from different ids differ |
| FolderTree.Flatten | src/folder_tools.ts:200-202 | the inner `flatten` yields at most one id per node of the subtree; its exact value is pinned by FlattenIsPreOrderOfKind |
| FolderTree.FlattenAll | src/folder_tools.ts:200-202 | the flattening of a forest yields at most one id per node of the forest |
| FolderTree.FolderIds | src/folder_tools.ts:199-203 | the collected ids are at most one per node over all projects |
| FolderTree.FolderIdsArePreOrderOfKind | src/folder_tools.ts:199-203 | the collected ids are the ids of the nodes of the requested kind, project after project, each tree in pre-order |
| FolderTree.IdsOfKindMembers | src/folder_tools.ts:199-203 | an id is kept by the flattening iff some node of the requested `_type` carries it |
| FolderTree.FlattenIsPreOrderOfKind | src/folder_tools.ts:200-202 | `flatten` yields the ids of the folders of the requested kind, in pre-order of the raw tree, whatever kinds are mixed in |
| FolderTree.FolderDetails | src/folder_tools.ts:121-137 | the flat record: id, name and creation fields copied; the parent folder id present iff the parent has the requested `_type`; description, modifier and modification date present iff truthy |
| FolderTree.BuildFolderTree | src/folder_tools.ts:140-181 | one node per record, with its fields; `roots` and every node's children equal the specification lists `Roots` and `Children` of the records |
| FolderTree.IndexUpToLast | src/folder_tools.ts:145-156 | the id map sends an id to the last record carrying it, and no later record carries it: a repeated id overwrites the earlier node |
| FolderTree.CreateNodes | src/folder_tools.ts:141-156 | the first pass: one node per record carrying its fields and no children; the map is `Index`, which sends each id to the last record carrying it |
| FolderTree.AttachNodes | src/folder_tools.ts:158-179 | the second pass: the roots and every node's children equal `Roots` and `Children` of the records |
| FolderTree.RootCriterion | src/folder_tools.ts:165-176 | a record is a root iff it names no parent folder or no record carries the named parent's id |
| FolderTree.RootsInInputOrder | src/folder_tools.ts:162-178 | with distinct ids, the roots are exactly the parentless records, in input order |
| FolderTree.ChildrenInInputOrder | src/folder_tools.ts:162-178 | with distinct ids, a node's children are exactly the records whose parent it is, in input order |
| FolderTree.EveryRecordPlaced | src/folder_tools.ts:162-178 | whatever the ids and links, the roots and all children lists together hold exactly one entry per record (for a repeated id, the last record's node) |
| FolderTree.EveryFolderOnce | src/folder_tools.ts:140-181 | with distinct ids and acyclic parent links, the nested forest holds every record's id exactly once |
| FolderTree.RecordOnceInForest | src/folder_tools.ts:158-179 | with distinct ids and acyclic parent links, each record's id occurs exactly once in the nested forest, under exactly one root |
| FolderTree.GetFoldersTree | src/folder_tools.ts:184-210 | the tree GET, then one details GET per flattened id (all issued); it succeeds iff none of those fails; the rebuilt forest is `BuildFolderTree` of the fetched records |
| FolderCreation.CreateFolderRecursive | src/folder_tools.ts:261-316 | the requests, result and id counter are those of the specification `Create`: the folder is posted, then its children in order under the new id; a failure ends every enclosing creation |
| FolderCreation.CreateChildren | src/folder_tools.ts:292-310 | the children loop is `CreateAll`: each child's creation starts where the previous one stopped, and the first failure ends the loop |
| FolderCreation.CreateOutcome | src/folder_tools.ts:261-316 | a creation issues at most one POST per folder of the structure; on success exactly one per folder, none failing; on failure it stops right after its first failing POST |
| FolderCreation.CreateSucceedsIff | src/folder_tools.ts:284-310 | a creation succeeds iff none of the `Size(spec)` POSTs it would issue fails |
| FolderCreation.CreateIds | src/folder_tools.ts:289-315 | the created folders get consecutive fresh ids in pre-order, with no gap and no repeat |
| FolderCreation.CreateShape | src/folder_tools.ts:292-315 | a successful creation returns the requested structure: the same names and nesting, children in order, and the top folder's id is the first fresh id |
| FolderCreation.CreatePayloads | src/folder_tools.ts:272-290 | a successful creation posts, in pre-order, each folder's name and description under its parent's new id (the top folder under the given parent) |
| FolderCreation.CreateUnaffected | src/folder_tools.ts:284-310 | a creation none of whose POSTs fails equals the failure-free creation |
| FolderCreation.CreatePrefix | src/folder_tools.ts:284-310 | a failure only cuts the creation short: the POSTs issued are a prefix of those of the failure-free creation |
| FolderCreation.CreateAllStops | src/folder_tools.ts:296-310 | once the children loop has failed, no later child is posted |
| FolderCreation.ParentResolution | src/folder_tools.ts:323-324 | the parent id and type are chosen by the same truthiness test: either the project with the project id, or the given non-zero folder id with the kind's folder type; a missing or zero folder id means the project |
| FolderCreation.CreateFoldersHandler | src/folder_tools.ts:319-343 | the three `create_*_folders` handlers: the creation under the resolved parent, posted to the kind's resource; the id counter advances by one per successful POST |
| FolderCreation.DeleteFolderHandler | src/folder_tools.ts:346-363 | one DELETE at `<kind>-folders/<id>` and the kind's `… folder <id> deleted successfully` message unless it fails |
| Paging.Keep | src/test_case_tools.ts:101-102 | the `_type` filter keeps exactly the matching items, every item when no filter applies (multiplicity: KeepCounts; order: KeepOne and KeepAppend) |
| Paging.KeepCounts | src/test_case_tools.ts:101-102 | each item of the requested `_type` is kept as many times as it occurs, any other item never |
| Paging.KeepOne | src/test_case_tools.ts:101-102 | a single item is kept iff it has the requested `_type` |
| Paging.KeepAppend | src/test_case_tools.ts:101-102 | filtering a concatenation filters each part and keeps them in order |
| Paging.StepOf | src/test_case_tools.ts:86-110 | one iteration's decision: a null body throws or ends the loop as the handler reads it; a missing key ends it when the handler breaks on it; otherwise the page's kept items are added, and the loop goes on iff `page` is present, taking its `totalPages` |
| Paging.FetchPage | src/test_case_tools.ts:91-95 | one page GET at `<base>page=<n>&size=50`, and that iteration's decision unless the GET fails |
| Paging.FetchNext | src/test_case_tools.ts:90-109 | one turn of the loop: the page GET is logged; a failed GET or a throw ends the whole run there, a stop ends it with the items so far plus this page's, and otherwise the loop's account moves one page on with the reported total |
| Paging.FetchPages | src/test_case_tools.ts:86-110 | the paging loop issues exactly the page GETs of the specification `Run`, in page order, and gathers what `Run` gathers |
| Paging.RunKeepsOnlyMatching | src/test_case_tools.ts:101-102 | every gathered item has the wanted `_type` |
| Paging.RunGathersPagesInOrder | src/test_case_tools.ts:101-109 | the gathered items are the kept items of the requested pages, page after page |
| Paging.RunContinuesOnlyWhenToldTo | src/test_case_tools.ts:86-110 | no page is requested when the bound is already reached; every page but the last succeeded, carried `page`, did not trigger a break, and reported more pages |
| Paging.FixedPageCount | src/test_case_tools.ts:86-110 | when every page reports the same t pages with the key present and nothing fails, the loop requests exactly t pages and gathers all of them |
| Paging.FetchWithDetails | src/test_case_tools.ts:79-141 | the paging loop, then one details GET per gathered item (all issued); the answer exists iff all succeed, and is each item shaped with its details, in order |
| Paging.ContentKeyFollowsSource | src/test_case_tools.ts:83-84 | endpoint and key follow the same test: items are read under `content` iff a truthy folder id is given |
| Paging.ContentFoldersDistinct | src/test_case_tools.ts:83 | different folder ids are listed at different endpoints |
| Paging.ContentRootsDistinct | src/test_case_tools.ts:83 | without a folder, different projects' library roots are listed at different endpoints |
| TestCaseTools.StepViews | src/test_case_tools.ts:129-132 | each step is reduced to its action and expected result, in order |
| TestCaseTools.ViewOf | src/test_case_tools.ts:119-133 | a listed test case: id, name, description and creation fields copied; reference, prerequisite and last modification fields reported iff truthy; the steps as action and expected result |
| TestCaseTools.ViewLosesOnlyFalsyAndStepKinds | src/test_case_tools.ts:119-133 | two details are reported alike iff they agree on every reported field (optional ones after dropping falsy values) and on their steps' actions and expected results |
| TestCaseTools.GetTestCaseFolderContent | src/test_case_tools.ts:79-141 | the `get_test_case_folder_content` handler: the paging loop over the folder or the project library root, keeping `test-case` items, then details and shaping |
| TestCaseTools.TestCasePayloads | src/test_case_tools.ts:154-169 | one `test-case` body per input, in order, with name, description, prerequisite, the reference iff truthy, the resolved parent and the steps |
| TestCaseTools.CreateTestCases | src/test_case_tools.ts:144-189 | test cases are posted one after the other, stopping at the first failure; on success each is reported with its fresh id, the posted name and the posted reference; the id counter advances by one per successful POST |
| TestCaseTools.DeleteTestCase | src/test_case_tools.ts:192-209 | one DELETE at `test-cases/<id>` and `Test case <id> deleted successfully` unless it fails |
| RequirementTools.ViewOf | src/requirement_tools.ts:100-118 | a listed requirement: id and name from the requirement, the other fields from its current version, the reference iff truthy |
| RequirementTools.ViewIgnoresVersionAttributes | src/requirement_tools.ts:100-118 | version number, criticality, category and status never reach the answer, and a falsy reference reads as none |
| RequirementTools.RequirementRootsFollowProject | src/requirement_tools.ts:71-72 | without a folder, the listing reads each project's own library root, under the library's key rather than `content` |
| RequirementTools.GetRequirementFolderContent | src/requirement_tools.ts:67-124 | the `get_requirement_folder_content` handler: the paging loop keeping `requirement` items, breaking on a missing key, then details and shaping |
| RequirementTools.RequirementPayloads | src/requirement_tools.ts:136-154 | one body per requirement, in order: a `requirement` whose `requirement-version` carries the given name, description and reference, criticality UNDEFINED, category CAT_UNDEFINED, status WORK_IN_PROGRESS, under the resolved parent |
| RequirementTools.CreateRequirements | src/requirement_tools.ts:127-174 | requirements are posted one after the other, stopping at the first failure; on success each is reported with its fresh id, posted name and truthy reference; the id counter advances by one per successful POST |
| RequirementTools.DeleteRequirement | src/requirement_tools.ts:177-194 | one DELETE at `requirements/<id>` and `Requirement <id> deleted successfully` unless it fails |
| LegacyRequirements.LegacyViewOf | src/requirements.ts:84-97 | the older shaping copies every current-version field as given, the category through `category?.code` |
| LegacyRequirements.NewerViewIsRestriction | src/requirement_tools.ts:100-118 | the newer answer is the older one with the version attributes dropped and a falsy reference left out |
| LegacyRequirements.LegacyRootListingIgnoresProject | src/requirements.ts:58 | without a folder id the older listing reads `requirement-folders/undefined/content` for every project, an endpoint the newer listing never uses |
| LegacyRequirements.LegacyGetRequirementFolderContent | src/requirements.ts:48-105 | the older handler: the paging loop over `requirement-folders/<folder_id>/content` under `content`, then details and the older shaping |
| LegacyRequirements.LegacyPayloads | src/requirements.ts:117-134 | the older bodies are the newer ones for the same requirements without a reference |
| LegacyRequirements.LegacyCreateRequirements | src/requirements.ts:108-153 | posted one after the other, stopping at the first failure; on success each is reported with the id and name from the server's answer; the id counter advances by one per successful POST |
| LegacyRequirements.LegacyDeleteRequirement | src/requirements.ts:156-173 | the same request and message as the newer delete |
| ProjectTools.ProjectViewOf | src/project_tools.ts:81-86 | id and name from the listing page; label and description from the details, each iff truthy |
| ProjectTools.ListProjects | src/project_tools.ts:47-95 | the paging loop over `projects?type=STANDARD&`, keeping every item and throwing on a null page, then details and shaping |
| ProjectTools.ProjectPagesNeedOnlyPage | src/project_tools.ts:61-70 | the project loop goes on iff the body carries `page`, and a page without `projects` contributes nothing |
| ProjectTools.CreateProject | src/project_tools.ts:98-123 | one POST of a `project` with the given name, label and description; on success the new id |
| ProjectTools.DeleteProject | src/project_tools.ts:126-143 | one DELETE at `projects/<id>` and `Project <id> deleted successfully` unless it fails |
| LegacyIndex.AllFetchedAppend | src/index.ts:268-282 | all details fetched for a concatenation iff for both parts |
| LegacyIndex.DetailedFolder | src/index.ts:269-280 | a detailed folder keeps the raw id and name and has one child per raw child, carrying that child's id; success and the copied fields are pinned by DetailedFolderSucceedsIff and DetailedFolderMirrors |
| LegacyIndex.DetailedFolders | src/index.ts:268-282 | `getDetailedFolders` answers one folder per raw folder, in order, with its id and name |
| LegacyIndex.DetailedFolderSucceedsIff | src/index.ts:268-282 | detailing a folder succeeds iff every folder of its subtree has its details fetched |
| LegacyIndex.DetailedFoldersSucceedIff | src/index.ts:268-282 | `getDetailedFolders` succeeds iff every folder of the forest has its details fetched |
| LegacyIndex.DetailedFolderMirrors | src/index.ts:269-280 | a detailed folder has the raw id and name, the fields of its details, and children mirroring the raw children |
| LegacyIndex.DetailedFoldersMirror | src/index.ts:268-282 | the detailed forest mirrors the raw one, folder for folder, in order |
| LegacyIndex.NewerProjectViewIsRestriction | src/index.ts:248-253 | the older listing copies label and description as given; the newer view is the older one with a falsy label or description dropped, and the two agree iff neither is the empty string |
| LegacyIndex.LegacyListProjects | src/index.ts:211-265 | the older `list_projects`: the paging loop; "No projects found." and no detail request when it gathered nothing; otherwise details and shaping |
| LegacyIndex.NullEndsOlderListing | src/index.ts:222-231 | a null first page ends the older listing with nothing found, where the newer listing fails |
| LegacyIndex.NewerTestCaseViewIsRestriction | src/index.ts:476-485 | the older shaping copies the details as given; on the fields both report, the newer view equals it with a falsy prerequisite or last modification field dropped |
| LegacyIndex.LegacyGetTestCaseFolderContent | src/index.ts:436-497 | the older listing: the folder's pages under `content` keeping `test-case` items; the "No test cases found in the specified folder." text when none; otherwise details and shaping |
| LegacyIndex.LegacyFolderListingMatchesNewer | src/index.ts:443 | for a given folder, the older listing reads the same endpoint and key as the newer one |
| LegacyIndex.LegacyTestCasePayloads | src/index.ts:374-387 | each test case at the project root with name, description and `action-step` steps, without reference or prerequisite |
| LegacyIndex.LegacyTestCasePayloadsMatchNewer | src/index.ts:374-387 | the older bodies are exactly the newer tool's bodies for the same test cases without reference, prerequisite or parent folder |
| LegacyIndex.LegacyCreateTestCases | src/index.ts:371-396 | `Promise.all` of one POST per test case: all issued, success iff none fails |
| LegacyIndex.LegacyCreateCoversNewer | src/index.ts:371-396 | for the same test cases the newer handler posts a prefix of what the older one posts, and all of it when no POST fails |
| LegacyIndex.ProjectCreatedMessagesDiffer | src/index.ts:421 | different new project ids give different confirmation texts |
| LegacyIndex.LegacyCreateProject | src/index.ts:407-425 | the same POST as the newer tool, answered with `Project created successfully with ID: <id>` |
| DocSchema.FormatType | src-doc-gen/mcp-doc-generator.ts:138-154 | a type label is never empty |
| DocSchema.ElementSchema | src-doc-gen/mcp-doc-generator.ts:141-145 | what is left under the array layers is not itself an array with items |
| DocSchema.FormatTypeUnwrapsArrays | src-doc-gen/mcp-doc-generator.ts:138-154 | a label is one `array of ` per nested array layer, then the element schema's label |
| DocSchema.ChildPath | src-doc-gen/mcp-doc-generator.ts:171 | a top-level path is the name; below, the path is the parent path, a dot, then the name |
| DocSchema.HeadRow | src-doc-gen/mcp-doc-generator.ts:171-176 | a property's row: its path and type label, "Yes" iff its name is required at its level (else "No"), its description or "-" |
| DocSchema.Rows | src-doc-gen/mcp-doc-generator.ts:163-193 | no rows unless the schema is an object with properties; otherwise at least one row per property |
| DocSchema.Block | src-doc-gen/mcp-doc-generator.ts:169-188 | a property's rows open with its own row |
| DocSchema.PropertiesListedInOrder | src-doc-gen/mcp-doc-generator.ts:169-189 | the rows are one block per property in property order, each block opening with that property's row |
| DocSchema.RowsStayUnderParent | src-doc-gen/mcp-doc-generator.ts:171-187 | below a non-empty parent path every row's path starts with `<parent>.`, nested rows included |
| DocSchema.CollectParameters | src-doc-gen/mcp-doc-generator.ts:163-193 | the loop collects exactly the specification rows `Rows` |
| DocSchema.CollectProperty | src-doc-gen/mcp-doc-generator.ts:171-188 | one loop turn collects exactly the property's `Block` |
| McpClient.SplitLines | src-doc-gen/mcp-doc-generator.ts:66 | `split('\n')`: at least one piece, none containing a newline |
| McpClient.SplitThenJoin | src-doc-gen/mcp-doc-generator.ts:66 | joining the pieces with newlines gives the text back |
| McpClient.JoinThenSplit | src-doc-gen/mcp-doc-generator.ts:66 | splitting newline-free pieces joined with newlines gives the pieces back |
| McpClient.BufferKeepsTextAfterLastNewline | src-doc-gen/mcp-doc-generator.ts:66-67 | the kept buffer is the text after the last newline; the dispatched lines are exactly the complete lines before it |
| McpClient.DispatchLines | src-doc-gen/mcp-doc-generator.ts:69-81 | dispatching only removes ids from the pending set and only appends answers |
| McpClient.DispatchLeavesUnanswered | src-doc-gen/mcp-doc-generator.ts:69-81 | after dispatch the pending ids are the former ones minus the ids parsed from non-blank lines |
| McpClient.DispatchAnswersEachOnce | src-doc-gen/mcp-doc-generator.ts:73-76 | every new answer was pending, came from a parsed line, and no id is answered twice |
| McpClient.DispatchAccountsForWaiting | src-doc-gen/mcp-doc-generator.ts:73-76 | the pending ids after dispatch plus the newly answered ones are exactly the pending ids before |
| McpClient.DispatchKeepsAccounts | src-doc-gen/mcp-doc-generator.ts:69-81 | dispatch keeps every pending and answered id below the counter, answered ids not pending and each answered once |
| McpClient.Client.constructor | src-doc-gen/mcp-doc-generator.ts:35-41 | empty buffer, counter 0, nothing pending |
| McpClient.Client.SendRequest | src-doc-gen/mcp-doc-generator.ts:85-103 | the id is the counter's old value and the counter goes up by one; the id was neither pending nor answered and is now pending; the request carries the params or `{}` |
| McpClient.Client.Expire | src-doc-gen/mcp-doc-generator.ts:106-111 | the timeout rejects iff the id was still pending, and removes it |
| McpClient.Client.ProcessBuffer | src-doc-gen/mcp-doc-generator.ts:65-83 | the buffer keeps the text after the last newline; the complete lines before it are dispatched in order, as `DispatchLines` says |
| McpClient.Client.OnData | src-doc-gen/mcp-doc-generator.ts:47-50 | the data is appended to the buffer, which is then processed |

## Left out

- Network, HTTP status handling, JSON (de)serialisation, logging, correlation ids, zod input validation and `formatResponse` are not modelled. A request either yields the server's body or throws, and which requests throw is a parameter of the store.
- The scheduling of `Promise.all` is not modelled. Its requests are taken to be issued in array order, all of them, and its result fails when any fails. The order in which concurrent requests actually reach the server is not captured.
- `getDetailedFolders` (`src/index.ts:268-282`) is modelled as a pure function of a GET oracle that may fail. The requests it issues and their order are not logged.
- Paging termination needs a bound on the `totalPages` the server reports. Without one the source loop need not end. The bound is a ghost parameter of every listing.
- The folder-tree tool handlers of `src/folder_tools.ts:214-259` and the older tree tools of `src/index.ts` only call the modelled functions and format the result, so they have no members of their own.
- FolderTree.BuildFolderTree: the node objects the source shares between the map and the result are modelled as positions in a node array. The result is therefore an arena, not a nested JSON value. The nested reading `Forest` exists only for distinct ids and acyclic parent links, and `EveryFolderOnce` is stated under those conditions.
- FolderTree.EveryRecordPlaced: it counts entries, it does not show every record reachable. Under a repeated id the earlier records' fields are lost, because their entries all point at the last record's node (the `Map.set` overwrite at src/folder_tools.ts:146-156). Records on a parent cycle are unreachable from the returned roots.
- FolderCreation.CreateFolderRecursive: an absent `children` list and an empty one are both the empty sequence. The source treats them alike.
- DocSchema.CollectParameters: the source's third parameter `parentRequired` is never read, so the model omits it. A non-string `type` value is not modelled: `type` is an optional string.
- McpClient.Client.ProcessBuffer: `JSON.parse` and the reading of `id` are a parameter `parse`. Its None stands for a line that fails to parse or carries no id.
- McpClient.Client.SendRequest: `params` is an optional text, and `{}` replaces an absent one. A present but falsy `params` value is not modelled.
- Promise resolution and rejection, the child process, `stdin` writes, `connect`, `close`, the stderr handler and `generateMarkdown` are not modelled.
- `src/squashtm_rest_api.ts` and the test files are not part of this model.
- FolderCreation.ParentResolution: a missing or zero `parent_folder_id` selects the project, because src/folder_tools.ts:323-324, 370-371 and 417-418 test its truthiness.

## Findings

| source | as written | input that shows it | evidently intended | confidence | as-written member | corrected member |
|---|---|---|---|---|---|---|
| src/requirements.ts:58 | the older requirement listing always reads `requirement-folders/${folder_id}/content`, even though `folder_id` is optional and `project_id` is given | no `folder_id`, any `project_id`: the endpoint is `requirement-folders/undefined/content` for every project | without a folder, list the root of the given project's requirement library, as the newer `src/requirement_tools.ts:71-72` does | not executed | LegacyRequirements.LegacyRootListingIgnoresProject | RequirementTools.RequirementRootsFollowProject |
