/** The request variables and response checks of the mutations and queries in
    util/github.py other than the page walks: each builds its variables from
    its arguments (possibly raising before anything is sent) and then decides,
    from the decoded response alone, what to return or which exception to
    raise. */
module Responses {
  import opened Wrappers
  import opened Json
  import opened Transport

  /** The result of one request/response exchange: what the call returned or
      raised, the requests it sent, and how many responses it consumed. */
  datatype Call<T> = Call(result: Result<T>, sent: seq<Request>, consumed: nat)

  /** Build the variables (which may raise), post them, decode the reply. */
  function Exchange<T>(request: Result<Request>, responses: seq<Json>, decode: Json -> Result<T>): (c: Call<T>)
    ensures c.consumed <= |responses|
    ensures request.Err? ==> c == Call(Err(request.error), [], 0)
  {
    match request
    case Err(e) => Call(Err(e), [], 0)
    case Ok(q) =>
      if responses == [] then Call(Err(TransportError), [q], 0)
      else Call(decode(responses[0]), [q], 1)
  }

  /** `d.get(k)` on a dict's members. */
  function Member(m: map<string, Json>, key: string): Json
  {
    if key in m then m[key] else JNull
  }

  /** The path `create_project` checks and reads, below the response. */
  const CreatedProject: seq<string> := ["data", "createProjectV2", "projectV2"]
  /** The path `update_project` checks and reads, below the response. */
  const UpdatedProject: seq<string> := ["data", "updateProjectV2", "projectV2"]

  /** `create_project`'s variables: the snapshot's `title` (required) and the
      owner id it is given. */
  function CreateProjectRequest(project: Json, ownerId: Json): (r: Result<Request>)
    ensures r.Ok? <==> project.JObj? && "title" in project.members
    ensures r.Ok? ==> r.value == CreateProjectMutation(project.members["title"], ownerId)
    ensures r.Err? ==> r.error == if project.JObj? then KeyError else TypeError
  {
    match Subscript(project, "title")
    case Err(e) => Err(e)
    case Ok(title) => Ok(CreateProjectMutation(title, ownerId))
  }

  /** `create_project`'s check of the response: the new project's id when the
      guard `'data' in data and 'createProjectV2' in ... and 'projectV2' in ...`
      holds, otherwise ValueError. */
  function CreateProjectOutcome(data: Json): (r: Result<Json>)
    ensures r.Ok? ==> Path(data, CreatedProject + ["id"]) == r
    ensures Guard(data, CreatedProject) == Ok(false) ==> r == Err(ValueError)
    ensures data.JObj? && "data" !in data.members ==> r == Err(ValueError)
  {
    match Guard(data, CreatedProject)
    case Err(e) => Err(e)
    case Ok(present) =>
      if !present then Err(ValueError) else Path(data, CreatedProject + ["id"])
  }

  /** Whenever the response holds `data.createProjectV2.projectV2.id`, that is
      what `create_project` returns. */
  lemma CreateProjectReturnsId(data: Json)
    requires Path(data, CreatedProject + ["id"]).Ok?
    ensures CreateProjectOutcome(data) == Path(data, CreatedProject + ["id"])
  {
    PathAppend(data, CreatedProject, ["id"]);
    GuardHoldsOnPath(data, CreatedProject);
  }

  /** `update_project`'s variables: the new project's id, the snapshot's
      `title` (required), and `closed`, `public`, `readme`, `shortDescription`
      by `.get`, so null when absent. */
  function UpdateProjectRequest(projectId: Json, project: Json): (r: Result<Request>)
    ensures r.Ok? <==> project.JObj? && "title" in project.members
    ensures r.Err? ==> r.error == if project.JObj? then KeyError else TypeError
    ensures r.Ok? ==>
              var m := project.members;
              r.value == UpdateProjectMutation(projectId, m["title"], Member(m, "closed"), Member(m, "public"),
                                               Member(m, "readme"), Member(m, "shortDescription"))
  {
    match Subscript(project, "title")
    case Err(e) => Err(e)
    case Ok(title) =>
      var closed := DictGet(project, "closed").value;
      var public := DictGet(project, "public").value;
      var readme := DictGet(project, "readme").value;
      var shortDescription := DictGet(project, "shortDescription").value;
      Ok(UpdateProjectMutation(projectId, title, closed, public, readme, shortDescription))
  }

  /** `update_project`'s check of the response: the pair (id, title) read
      below `data.updateProjectV2.projectV2` when the guard holds, otherwise
      ValueError. */
  function UpdateProjectOutcome(data: Json): (r: Result<(Json, Json)>)
    ensures r.Ok? ==> (Path(data, UpdatedProject + ["id"]) == Ok(r.value.0) &&
                       Path(data, UpdatedProject + ["title"]) == Ok(r.value.1))
    ensures Guard(data, UpdatedProject) == Ok(false) ==> r == Err(ValueError)
    ensures data.JObj? && "data" !in data.members ==> r == Err(ValueError)
  {
    match Guard(data, UpdatedProject)
    case Err(e) => Err(e)
    case Ok(present) =>
      if !present then Err(ValueError)
      else match Path(data, UpdatedProject + ["id"])
        case Err(e) => Err(e)
        case Ok(id) =>
          match Path(data, UpdatedProject + ["title"])
          case Err(e) => Err(e)
          case Ok(title) => Ok((id, title))
  }

  /** Whenever the response holds both the id and the title of the updated
      project, `update_project` returns them. */
  lemma UpdateProjectReturnsIdAndTitle(data: Json)
    requires Path(data, UpdatedProject + ["id"]).Ok? && Path(data, UpdatedProject + ["title"]).Ok?
    ensures UpdateProjectOutcome(data) ==
              Ok((Path(data, UpdatedProject + ["id"]).value, Path(data, UpdatedProject + ["title"]).value))
  {
    PathAppend(data, UpdatedProject, ["id"]);
    GuardHoldsOnPath(data, UpdatedProject);
  }

  /** `create_fields`'s variables.  A missing, null, false, zero or empty
      `dataType` raises ValueError before any request; `name` is required. */
  function CreateFieldRequest(projectId: Json, fields: Json): (r: Result<Request>)
    ensures r.Ok? <==> fields.JObj? && "dataType" in fields.members && Truthy(fields.members["dataType"])
                       && "name" in fields.members
    ensures r.Ok? ==> r.value == CreateFieldMutation(projectId, fields.members["dataType"], fields.members["name"])
    ensures fields.JObj? && !Truthy(Member(fields.members, "dataType")) ==> r == Err(ValueError)
    ensures !fields.JObj? ==> r == Err(AttributeError)
  {
    match DictGet(fields, "dataType")
    case Err(e) => Err(e)
    case Ok(dataType) =>
      if !Truthy(dataType) then Err(ValueError)
      else match Subscript(fields, "name")
        case Err(e) => Err(e)
        case Ok(name) => Ok(CreateFieldMutation(projectId, fields.members["dataType"], name))
  }

  /** The `'errors' in data` test the last three calls make: TypeError when
      the response cannot be searched, true when it reports errors. */
  function HasErrors(data: Json): (r: Result<bool>)
    ensures data.JObj? ==> r == Ok("errors" in data.members)
  {
    PyIn("errors", data)
  }

  /** `create_fields`'s check of the response: ValueError when it reports
      `errors`, otherwise success (the method returns None). */
  function CreateFieldOutcome(data: Json): (r: Result<Json>)
    ensures r.Ok? ==> r.value == JNull && HasErrors(data) == Ok(false)
    ensures data.JObj? ==> (r.Ok? <==> "errors" !in data.members)
    ensures HasErrors(data) == Ok(true) ==> r == Err(ValueError)
  {
    match HasErrors(data)
    case Err(e) => Err(e)
    case Ok(failed) => if failed then Err(ValueError) else Ok(JNull)
  }

  /** `get_content`'s check: ValueError when the response reports `errors`,
      otherwise `data.repository.issueOrPullRequest` (which may raise). */
  function GetContentOutcome(data: Json): (r: Result<Json>)
    ensures HasErrors(data) == Ok(true) ==> r == Err(ValueError)
    ensures HasErrors(data) == Ok(false) ==> r == Path(data, ["data", "repository", "issueOrPullRequest"])
    ensures r.Ok? ==> HasErrors(data) == Ok(false)
  {
    match HasErrors(data)
    case Err(e) => Err(e)
    case Ok(failed) =>
      if failed then Err(ValueError) else Path(data, ["data", "repository", "issueOrPullRequest"])
  }

  /** `add_project_item`'s check: ValueError when the response reports
      `errors`, otherwise `data.addProjectV2ItemById.item` (which may raise). */
  function AddItemOutcome(data: Json): (r: Result<Json>)
    ensures HasErrors(data) == Ok(true) ==> r == Err(ValueError)
    ensures HasErrors(data) == Ok(false) ==> r == Path(data, ["data", "addProjectV2ItemById", "item"])
    ensures r.Ok? ==> HasErrors(data) == Ok(false)
  {
    match HasErrors(data)
    case Err(e) => Err(e)
    case Ok(failed) =>
      if failed then Err(ValueError) else Path(data, ["data", "addProjectV2ItemById", "item"])
  }

  /** The response the API sends for a created project. */
  function CreatedResponse(id: Json): Json
  {
    JObj(map["data" := JObj(map["createProjectV2" := JObj(map["projectV2" := JObj(map["id" := id])])])])
  }

  /** `create_project` returns the id the API reports. */
  lemma CreatedResponseGivesId(id: Json)
    ensures CreateProjectOutcome(CreatedResponse(id)) == Ok(id)
  {
    var project := JObj(map["id" := id]);
    var created := JObj(map["projectV2" := project]);
    var data := JObj(map["createProjectV2" := created]);
    var keys := CreatedProject + ["id"];
    assert CreatedResponse(id) == JObj(map["data" := data]);
    assert Path(project, keys[3..]) == Ok(id);
    assert Path(created, keys[2..]) == Ok(id);
    assert Path(data, keys[1..]) == Ok(id);
    CreateProjectReturnsId(CreatedResponse(id));
  }

  /** The response the API sends for an updated project. */
  function UpdatedResponse(id: Json, title: Json): Json
  {
    JObj(map["data" := JObj(map["updateProjectV2" := JObj(map["projectV2" := JObj(map["id" := id, "title" := title])])])])
  }

  /** `update_project` returns the id and title the API reports. */
  lemma UpdatedResponseGivesIdAndTitle(id: Json, title: Json)
    ensures UpdateProjectOutcome(UpdatedResponse(id, title)) == Ok((id, title))
  {
    var project := JObj(map["id" := id, "title" := title]);
    var updated := JObj(map["projectV2" := project]);
    var data := JObj(map["updateProjectV2" := updated]);
    assert UpdatedResponse(id, title) == JObj(map["data" := data]);
    var ids := UpdatedProject + ["id"];
    var titles := UpdatedProject + ["title"];
    assert Path(project, ids[3..]) == Ok(id);
    assert Path(updated, ids[2..]) == Ok(id);
    assert Path(data, ids[1..]) == Ok(id);
    assert titles[3..] == ["title"] && titles[2..] == ["projectV2", "title"];
    assert titles[1..] == ["updateProjectV2", "projectV2", "title"];
    assert Path(project, ["title"]) == Ok(title);
    assert Path(updated, ["projectV2", "title"]) == Ok(title);
    assert Path(data, titles[1..]) == Ok(title);
    UpdateProjectReturnsIdAndTitle(UpdatedResponse(id, title));
  }
}
