# github-projects, modelled in Dafny

The repository copies GitHub Projects (v2) from one organization to another,
using the GraphQL API.

- **`util/github.py`**
  - `get_projects` lists an organization's projects.
  - For each project it walks three cursor-paginated connections (fields, views, items) into a `Project` object.
  - The mutations (`create_project`, `update_project`, `create_fields`, `add_project_item`) and the `get_content` query each check one response.
- **`import.py`** creates a copy of every saved project snapshot. For each snapshot whose creation, `id` lookup and update all succeed, it writes one line `"<source id> -> <new id>"` to `project_mapping.log`. A copy whose snapshot has no `id`, or whose update raises, is left without a line.
- **`check.py`** reads that file back and works out, for every snapshot file, which project id it would count.

**How the model represents it**

- **Endpoint.** The GraphQL endpoint is a `Transport.Network` object.
  - It logs every request it is sent.
  - It answers from a finite supply of decoded responses.
  - Once the supply is used up, a request fails with `TransportError`. This is also what ends a pagination loop that never sees `hasNextPage` false.
- **JSON.** Decoded values are the `Json` datatype.
  - Python's `in`, `d[k]`, `.get`, truthiness, iteration and `str()` are written out with their exceptions (`Json` module, `Wrappers.PyError`).
  - String operations (`find`, `split`, `strip`, `endswith`, reading a text file line by line with universal newlines) are in `Text`.

**The parts**

- **`Paging`.** The whole `while True` loop of a fetch, as a function of the response supply (`Walk`, `Paginate`).
  - `Projects.Project.Fetch` is the loop itself, written as a loop over the network object.
  - It is proved equal to `Walk`.
  - `FetchFields`, `FetchViews` and `FetchItems` update the object's lists.
- **`GitHubClient`.**
  - `GetProjectsRun` specifies `get_projects` over the traffic.
  - `GitHub.GetProjects` and `GitHub.LoadAll` build real `Project` objects and are proved against it.
- **`Responses`.** The request variables and response checks of the other calls. The `GitHub` class sends them through `Send`.
- **`ProjectMapping`.**
  - The line format, and its parser as a fold (`Load`) and as a loop (`ReadProjectMapping`).
  - The dict semantics (`Assign`, last write wins).
  - The round trip from the written file back to the dict.
- **`Snapshots`.** `get_json_files` and the id taken from a snapshot's file name.
- **`Importer`.** `process_file` (`FileRun`) and the import loop (`ImportRun`) as functions of the snapshots, the owner id and the traffic. The methods `ProcessFile` and `ImportGithubProject` drive the `GitHub` client and a `MappingFile` and are proved against those functions.
- **`ItemCheck`.** `check_project_item_counts` as the list of ids it queries. The end-to-end property: after an import, target mode resolves each imported snapshot to the copy recorded last for it.

## Model

| member | source | states |
|---|---|---|
| Projects.Project.constructor | util/github.py:66-71 | a new project has the given id, an empty metadata list and no fields, views or items |
| Projects.Project.FetchPage | util/github.py:122-125 | one iteration's request: the page query with the current cursor is sent, and the next response (or a transport failure when none is left) is decoded |
| Projects.Project.Fetch | util/github.py:116-133 | the loop sends exactly the requests, consumes exactly the responses and collects exactly the pages of `Walk` over the decoded supply, and ends with its status |
| Projects.Project.FetchFields | util/github.py:116-133 | the fields list grows by the pages of the fields walk, from a null cursor; the views, items, id and metadata are unchanged; the network advances by the walk's requests and responses |
| Projects.Project.FetchItems | util/github.py:226-247 | the same for the items list and the items walk |
| Projects.Project.FetchViews | util/github.py:361-382 | the same for the views list and the views walk |
| Paging.NextOf | util/github.py:129-133 | reading `pageInfo` (the same at 243-247 and 378-382): the loop follows on only when `hasNextPage` is truthy, with the page's `endCursor`; it stops only when `hasNextPage` is falsy; any failing subscript raises after the append |
| Paging.Step | util/github.py:125-133 | one iteration on a decoded response: `fetch_items` (235-247) and `fetch_views` (370-382) test `'data' not in data` first, `fetch_fields` has no such test; for all three a dict without `data` raises KeyError; an appended page is the `nodes` below `data.node.<connection>`, and the way on is `NextOf` of that connection object |
| Paging.Paginate | util/github.py:116-133 | the whole `while True` loop of a fetch, from a start cursor, against a supply of responses: `Walk` over the decoded steps; it never consumes more responses than the supply holds |
| Paging.Walk | util/github.py:121-133 | a walk sends at least one request; it appends at most one page per consumed response and consumes at most one response per request; a completed walk appended one page per request |
| Paging.WalkShape | util/github.py:116-124 | every request of a walk is a page query for the same connection and project; the first carries the start cursor |
| Paging.PagesInOrder | util/github.py:127 | page `i` of the result is the whole `nodes` value of response `i`, in fetch order |
| Paging.CursorsFollowEndCursor | util/github.py:129-133 | each request after the first is sent only after a page whose `hasNextPage` was truthy, and carries that page's `endCursor` |
| Paging.StopsAtLastPage | util/github.py:129-133 | a completed walk ends on a page whose `hasNextPage` was falsy |
| Paging.FailureKeepsEarlierPages | util/github.py:237-241 | a response that raises before appending ends the walk with its exception; the earlier pages stay appended and nothing of the failing page is |
| Paging.MissingDataFails | util/github.py:237-238 | a response without `data` makes each of the three fetches raise KeyError before appending |
| Paging.StepOfPageResponse | util/github.py:125-133 | a well-formed page response appends its `nodes` and follows its `endCursor` exactly when `hasNextPage` is true |
| Paging.PaginateServedPages | util/github.py:116-133 | for N > 0 served pages, the loop returns exactly those pages in order, sends N requests (the start cursor, then each page's end cursor) and reads no response after the last page |
| Paging.Proceed | util/github.py:121-133 | one more iteration, whether or not a response remains, continues the run as the walk specifies |
| GitHubClient.FetchProject | util/github.py:428-434 | building one project completes exactly when it yields one project; that project has the node's `id` and the node as metadata |
| GitHubClient.FetchProjectWalks | util/github.py:432-434 | a built project's fields, views and items are the pages of the fields, views and items walks for its id, run in that order, each on the traffic the previous one left; the traffic afterwards is the items walk's |
| GitHubClient.ProjectNodesOf | util/github.py:423-427 | a response without `data` raises KeyError; otherwise the listed nodes are the iteration of `data.organization.projectsV2.nodes` |
| GitHubClient.FetchAll | util/github.py:426-435 | the `for node in ...` loop: the nodes in order, each built by `FetchProject` on the traffic the previous one left, until one raises; its properties are `FetchAllOnePerNode` and `FetchAllBuildsInTurn` |
| GitHubClient.FetchAllOnePerNode | util/github.py:426-435 | a completed loop built one project per node, in node order |
| GitHubClient.FetchAllBuildsInTurn | util/github.py:426-435 | in a completed loop, project `k` is the one `FetchProject` builds for node `k` on the traffic the first `k` nodes left, and holds the pages of its three walks run on that traffic |
| GitHubClient.GetProjectsRun | util/github.py:393-437 | all of `get_projects` on the traffic: one projects query, its node list, then the loop; a completed run read a node list and built one project per node; with no response left it raises TransportError with no project |
| GitHubClient.SingleProjectsQuery | util/github.py:411-428 | `get_projects` sends exactly one projects query, first; every later request is a page query (the project list's own `pageInfo` is never followed) |
| GitHubClient.MissingDataRaisesKeyError | util/github.py:423-424 | a first response without `data` raises KeyError before any project is built or fetched |
| GitHubClient.OneProjectPerNode | util/github.py:393-437 | a completed `get_projects` returns one project per listed node, in order, keyed by the node's `id`, carrying the node as metadata, and holding the pages of its three walks, run after those of the projects before it |
| GitHubClient.GitHub.LoadProject | util/github.py:428-434 | one loop body on the network: it returns a fresh project whose state is the one `FetchProject` built, or the exception it raised |
| GitHubClient.GitHub.LoadAll | util/github.py:426-437 | the loop over the nodes: the requests and responses of `FetchAll`, fresh projects whose states are the built ones, in order, or the first exception |
| GitHubClient.GitHub.GetProjects | util/github.py:393-437 | all of `get_projects` on the network, as `GetProjectsRun` specifies it |
| GitHubClient.GitHub.CreateProject | util/github.py:445-472 | posts the creation built from the snapshot (none when building it raised) and returns what the response check decides; the network advances by that one exchange |
| GitHubClient.GitHub.UpdateProject | util/github.py:474-514 | the same for the update |
| GitHubClient.GitHub.CreateFields | util/github.py:535-563 | the same for a field creation |
| GitHubClient.GitHub.GetContent | util/github.py:565-597 | the same for the content query, with the organization as owner |
| GitHubClient.GitHub.AddProjectItem | util/github.py:599-623 | the same for adding an item |
| Responses.Exchange | util/github.py:464-467 | building the request raised: nothing is sent and nothing consumed; it never consumes more than the supply |
| Responses.CreateProjectRequest | util/github.py:460-463 | the creation is built exactly when the snapshot is a dict with a `title`; it carries that title and the owner id; otherwise KeyError on a dict, TypeError on anything else |
| Responses.CreateProjectOutcome | util/github.py:468-472 | a returned id is `data.createProjectV2.projectV2.id`; a failed guard, and a response without `data`, raise ValueError |
| Responses.CreateProjectReturnsId | util/github.py:468-470 | whenever the response holds that id, it is returned |
| Responses.CreatedResponseGivesId | util/github.py:468-470 | the API's creation response yields the id it reports |
| Responses.UpdateProjectRequest | util/github.py:497-504 | the update is built exactly when the snapshot has a `title`; it sends the new id, that title, and `closed`, `public`, `readme`, `shortDescription` as null when absent |
| Responses.UpdateProjectOutcome | util/github.py:508-514 | a returned pair is the id and title below `data.updateProjectV2.projectV2`; a failed guard, and a response without `data`, raise ValueError |
| Responses.UpdateProjectReturnsIdAndTitle | util/github.py:508-512 | whenever both are present, both are returned |
| Responses.UpdatedResponseGivesIdAndTitle | util/github.py:508-512 | the API's update response yields the id and title it reports |
| Responses.CreateFieldRequest | util/github.py:549-557 | a missing or falsy `dataType` raises ValueError before any request; a missing `name` raises; otherwise both are sent with the project id; a non-dict raises AttributeError |
| Responses.HasErrors | util/github.py:562 | on a dict response, the test is whether it has an `errors` key |
| Responses.CreateFieldOutcome | util/github.py:562-563 | success (None) exactly when a dict response has no `errors`; `errors` raises ValueError |
| Responses.GetContentOutcome | util/github.py:595-597 | `errors` raises ValueError; otherwise the result is `data.repository.issueOrPullRequest`, which may raise |
| Responses.AddItemOutcome | util/github.py:621-623 | `errors` raises ValueError; otherwise the result is `data.addProjectV2ItemById.item`, which may raise |
| Snapshots.JsonFiles | check.py:8-10 | a name is kept exactly when it is listed and ends in `.json` (import.py:11-12 defines the same function, and the import uses this one too) |
| Snapshots.JsonFilesConcat | check.py:10 | the filter keeps listing order: filtering two parts and putting them side by side equals filtering the whole |
| Snapshots.JsonFilesOfJsonNames | check.py:10 | a listing of `.json` names only is returned unchanged |
| Snapshots.FileProjectId | check.py:26 | the id is the prefix of the name before its first dot: it has no dot, and it is the whole name or is followed by one |
| Snapshots.FileProjectIdOfSnapshot | check.py:26 | for an id without a dot, the file `id + ".json"` gives back `id` |
| ProjectMapping.ParseLine | check.py:17 | a line that does not unpack into two pieces raises ValueError |
| ProjectMapping.ParseLineSplits | check.py:17 | a line parses exactly when the stripped line holds one occurrence of `" -> "`; then the line is key, separator and value, the key ends at the first occurrence and the value holds none |
| ProjectMapping.Load | check.py:16-18 | the `for line in file` loop as a fold over the lines: each line is parsed and stored in turn; its contract only says the failure is always ValueError, the unpacking error; what it loads is stated by `LoadAllOrNothing` |
| ProjectMapping.LoadAllOrNothing | check.py:14-19 | the load fails as a whole, with no partial dict, as soon as one line does not parse; otherwise every line's pair is stored in order |
| ProjectMapping.ReadMapping | check.py:12-19 | `read_project_mapping` on the file's text: a file that cannot be opened raises OSError, otherwise the load of its lines; any failure is OSError or ValueError |
| ProjectMapping.ReadProjectMapping | check.py:12-19 | the line-by-line loop returns what `ReadMapping` specifies: OSError for an unreadable file, else the load of its lines |
| ProjectMapping.AssignKeys | check.py:18 | the dict's keys are the earlier keys and the keys of the lines |
| ProjectMapping.AssignLastWins | check.py:18 | when a key repeats, the value of its last line wins |
| ProjectMapping.AssignKeepsOthers | check.py:18 | a key no line mentions keeps its earlier entry |
| ProjectMapping.MappingLine | import.py:35 | the f-string line `"<source> -> <target>\n"` written for one pair; that it parses back is `ParseWrittenLine` |
| ProjectMapping.Written | import.py:21-35 | the file text after the loop wrote the lines of `pairs`, in order, into the emptied file; that it reads back is `MappingRoundTrip` |
| ProjectMapping.ParseWrittenLine | import.py:35 | the line written for a well-formed pair parses back to that pair |
| ProjectMapping.MappingRoundTrip | import.py:35 | the file written for well-formed pairs reads back as those pairs stored in order, later duplicates overriding earlier ones |
| ProjectMapping.SeparatorInsideSource | check.py:17 | a source id ending in `" ->"` comes back cut in the wrong place: `"a ->"` and `"b"` read back as `"a"` and `"-> b"` |
| ProjectMapping.MappingFile.Truncate | import.py:20 | opening with `'w'` empties the file |
| ProjectMapping.MappingFile.Write | import.py:35 | a write appends its text |
| ItemCheck.Lookup | check.py:29 | `mapping.get(key)` is a value exactly when the key is present, and then the key's value |
| ItemCheck.CheckedIds | check.py:24-30 | the ids the loop passes to the count query, with the mapping read once: one per file when it succeeds; it fails only in target mode, with at least one file, when the mapping cannot be read |
| ItemCheck.CheckProjectItemCounts | check.py:21-34 | the loop queries, per `.json` file in order, the file's id (source mode) or its `mapping.get` (target mode); re-reading the mapping for every file is the same as reading it once; a bad mapping raises at the first file; with no files it is never read |
| ItemCheck.TargetCountsImportedCopy | check.py:27-30 | after an import of well-formed pairs, target mode resolves the snapshot `source + ".json"` to the copy recorded last for `source` |
| ItemCheck.TargetMissesUnimported | check.py:29 | a snapshot whose project the import did not record resolves to None |
| Importer.FileRun | import.py:24-38 | `process_file` on the traffic: create the project, read the snapshot's `id`, update, record the pair; the first step that raises ends the file, and the exception is caught; its properties are `FileRequests`, `RecordedAfterUpdate` and `MissingIdLeavesCreatedProject` |
| Importer.ImportRun | import.py:20-22 | the loop of `import_github_project` over the files, each on the traffic the previous one left; it records at most one pair per file; its properties are `ImportRunConcat` and `ImportCreatesForOwner` |
| Importer.FileRequests | import.py:32-34 | one file sends nothing, the creation, or the creation and then an update; the creation carries the snapshot's title and the owner id; the update is for exactly the id the creation returned |
| Importer.RecordedAfterUpdate | import.py:32-35 | a pair is recorded only when the creation, reading `id` and the update all succeeded; it holds the snapshot's `id` and the created id, which the update was sent for |
| Importer.MissingIdLeavesCreatedProject | import.py:32-33 | a snapshot without `id` fails after its project was created: that creation is the only request, and no pair is recorded |
| Importer.ImportCreatesForOwner | import.py:18-22 | every creation the import sends carries the one owner id looked up before the loop |
| Importer.ImportRunConcat | import.py:21-22 | a failing file does not stop the loop: importing two runs of files in turn records the pairs of both, in order |
| Importer.ImportedMappingReadsBack | import.py:35 | the mapping written by an import reads back in check.py as the recorded pairs, later ones winning, when the ids survive the line format |
| Importer.ProcessFile | import.py:24-38 | `process_file` on the client: the traffic and recorded pair of `FileRun`, and the file grows by exactly that pair's line |
| Importer.ImportGithubProject | import.py:14-22 | a failing owner lookup raises before the file is opened, so nothing changes; otherwise the file is emptied and then holds exactly the lines of `ImportRun`'s pairs, in order, and the traffic is `ImportRun`'s |

## Left out

- **HTTP.** The session, the headers and the GraphQL query texts are not modelled. A request is logged by its kind and variables, and a response is an already decoded `Json` value.
- **HTTP failures.** HTTP errors and a response body that is not JSON are not modelled. A supply that is used up stands for every transport failure (`TransportError`).
- **JSON values.** Floats in JSON are not modelled; numbers are integers.
- **`str()` of ids.** `Json.Format` renders a list or dict id as a fixed placeholder, not as Python's `str()` text. Ids are strings in practice.
- **Snapshot files.** `import.py`'s snapshot files are given as the map of those that open and parse. An absent name stands for every open or `json.load` failure, which `process_file` catches. Encoding errors are not modelled.
- **Folder listing.** `os.listdir`'s order is taken as the input listing, and its failures are not modelled.
- **The mapping file.** Its text is a `string` value, or `None` when it cannot be opened. Decoding errors of `open(..., encoding='utf-8')` are not modelled. Writes use `"\n"` as the line end, as on POSIX.
- **`get_ownerid`.** It is not part of this model, and its request is not in the traffic. The owner id it returns, or the exception it raises, is an input of `ImportGithubProject`.
- **`get_project_items_count`.** It does not exist in util/github.py, so check.py would fail there. `CheckProjectItemCounts` stops short of that call and returns the ids it would pass.
- **Logging, arguments and environment.** Logging, `argparse`, environment variables and the `__main__` blocks of check.py and import.py are not modelled.
- **Other repository code.** export.py, util/githubsession.py (retries) and util/comon.py are not part of this model. check.py uses two constants of util/comon.py, `Common.FOLDER_PATH` (the snapshot folder it lists) and `Common.MAPPING_FILE_PATH` (the mapping file it reads); the model takes the listing and the file's text as inputs instead of the paths.
- **Opening the mapping file for writing.** An OSError from `open(MAPPING_FILE_PATH, 'w')` (import.py:20) is not modelled: `MappingFile.Truncate` always succeeds.
- **`get_single_project`.** It and `get_ownerid` are not part of the modelled core.
- **Field and value classes.** The field classes and item field-value classes at the top of util/github.py only hold data and are not modelled.
- **Fetch queries.** The nested `fieldValues` inside the item pages are carried as opaque `Json`.
- Projects.Project.Fetch: collects the pages of one walk in a local list. `FetchFields`, `FetchViews` and `FetchItems` then append that list to the object's list once. The source appends page by page, but nothing reads the list during the loop, so the final state is the same; the intermediate object states are not modelled.
- Projects.Project.Fetch: takes the response decoding as a parameter. The three fetches pass `Paging.Decoder` of their connection, so the per-connection checks are those of `Paging.Step`.
- ProjectMapping.MappingRoundTrip: requires more than "non-empty ids with no separator and no surrounding white space". The source id must also not end in `" ->"`, because then the separator is found inside it (`SeparatorInsideSource`). The ids must also be on one line.
