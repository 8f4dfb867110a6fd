/** The `GitHub` class of util/github.py: `get_projects`, which builds one
    `Project` per node of the organization's first page of projects and runs
    the three fetches on each, and the mutations and queries whose response
    checks are modelled in `Responses`. */
module GitHubClient {
  import opened Wrappers
  import opened Json
  import opened Transport
  import opened Paging
  import opened Responses
  import opened Projects

  /** What `get_projects` (or a part of it) does to the endpoint's traffic:
      the projects it built, the traffic afterwards, and how it ended. */
  datatype Batch = Batch(projects: seq<ProjectState>, traffic: Traffic, status: Status)

  /** A page walk of connection `c` for project `id` on `t`: the run and the
      traffic after it. */
  datatype Walked = Walked(run: Run, traffic: Traffic)

  function WalkOn(c: Connection, id: Json, t: Traffic): (w: Walked)
    ensures w.run == Paginate(c, id, t.pending, JNull)
    ensures w.traffic == Traffic(t.sent + w.run.requests, t.pending[w.run.consumed..])
  {
    var run := Paginate(c, id, t.pending, JNull);
    Walked(run, Traffic(t.sent + run.requests, t.pending[run.consumed..]))
  }

  /** `b` after the projects `done` were already built. */
  function After(done: seq<ProjectState>, b: Batch): Batch
  {
    b.(projects := done + b.projects)
  }

  /** `p`'s fields, views and items are the pages of the fields, views and
      items walks for its id, run in that order from `t`, each on the
      traffic the previous one left; `after` is the traffic they leave. */
  predicate WalkedOn(p: ProjectState, t: Traffic, after: Traffic)
  {
    var f := WalkOn(FieldsConnection, p.id, t);
    var v := WalkOn(ViewsConnection, p.id, f.traffic);
    var i := WalkOn(ItemsConnection, p.id, v.traffic);
    && p.fields == f.run.pages && p.views == v.run.pages && p.items == i.run.pages
    && after == i.traffic
  }

  /** The path of the node list in `get_projects`'s response. */
  const ProjectNodes: seq<string> := ["data", "organization", "projectsV2", "nodes"]

  /** The body of the `for node in ...` loop for one node:
      `Project(project_id = node['id'])`, `project_meta = node`, then
      `fetch_fields`, `fetch_views` and `fetch_items`, each on the traffic
      the previous one left.  The first exception ends the call. */
  function FetchProject(node: Json, t: Traffic): (b: Batch)
    ensures b.status == Completed <==> |b.projects| == 1
    ensures b.status.Raised? ==> b.projects == []
    ensures b.status == Completed ==>
              Subscript(node, "id") == Ok(b.projects[0].id) && b.projects[0].meta == node
  {
    match Subscript(node, "id")
    case Err(e) => Batch([], t, Raised(e))
    case Ok(id) =>
      var f := WalkOn(FieldsConnection, id, t);
      if f.run.status.Raised? then Batch([], f.traffic, f.run.status)
      else
        var v := WalkOn(ViewsConnection, id, f.traffic);
        if v.run.status.Raised? then Batch([], v.traffic, v.run.status)
        else
          var i := WalkOn(ItemsConnection, id, v.traffic);
          if i.run.status.Raised? then Batch([], i.traffic, i.run.status)
          else Batch([ProjectState(id, node, f.run.pages, v.run.pages, i.run.pages)], i.traffic, Completed)
  }

  /** A built project holds the pages of its three walks, run in source
      order on the traffic `FetchProject` started from. */
  lemma FetchProjectWalks(node: Json, t: Traffic)
    ensures var b := FetchProject(node, t);
      b.status == Completed ==> WalkedOn(b.projects[0], t, b.traffic)
  {
  }

  /** The `for node in ...` loop: the nodes in order, each on the traffic
      the previous one left, until one raises. */
  function FetchAll(nodes: seq<Json>, t: Traffic): Batch
    decreases |nodes|
  {
    if nodes == [] then Batch([], t, Completed)
    else
      var first := FetchProject(nodes[0], t);
      if first.status.Raised? then first
      else After(first.projects, FetchAll(nodes[1..], first.traffic))
  }

  /** What `get_projects` makes of the projects query's response: the
      `'data' not in data` test (KeyError), then the list
      `data['data']['organization']['projectsV2']['nodes']` it iterates. */
  function ProjectNodesOf(data: Json): (r: Result<seq<Json>>)
    ensures data.JObj? && "data" !in data.members ==> r == Err(KeyError)
    ensures r.Ok? ==> Path(data, ProjectNodes).Ok? && Elements(Path(data, ProjectNodes).value) == r
  {
    match PyIn("data", data)
    case Err(e) => Err(e)
    case Ok(present) =>
      if !present then Err(KeyError)
      else match Path(data, ProjectNodes)
        case Err(e) => Err(e)
        case Ok(nodeList) => Elements(nodeList)
  }

  /** All of `get_projects`: one projects query (a single page; its
      `pageInfo` is never read), its response's node list, and the loop
      over it. */
  function GetProjectsRun(organization: string, t: Traffic): (b: Batch)
    ensures b.status == Completed ==>
              t.pending != [] && ProjectNodesOf(t.pending[0]).Ok? && |b.projects| == |ProjectNodesOf(t.pending[0]).value|
    ensures t.pending == [] ==> b.status == Raised(TransportError) && b.projects == []
  {
    var asked := t.sent + [ProjectsQuery(organization)];
    if t.pending == [] then Batch([], Traffic(asked, []), Raised(TransportError))
    else
      var t1 := Traffic(asked, t.pending[1..]);
      match ProjectNodesOf(t.pending[0])
      case Err(e) => Batch([], t1, Raised(e))
      case Ok(nodes) =>
        FetchAllOnePerNode(nodes, t1);
        FetchAll(nodes, t1)
  }

  /** One more iteration of the loop, after the projects `done` were built. */
  lemma FetchAllAdvance(nodes: seq<Json>, n: nat, t: Traffic, done: seq<ProjectState>, first: Batch)
    requires n < |nodes| && first == FetchProject(nodes[n], t)
    ensures first.status.Raised? ==> After(done, FetchAll(nodes[n..], t)) == Batch(done, first.traffic, first.status)
    ensures first.status == Completed ==>
              After(done, FetchAll(nodes[n..], t)) == After(done + first.projects, FetchAll(nodes[n + 1..], first.traffic))
  {
    assert nodes[n..][0] == nodes[n];
    assert nodes[n..][1..] == nodes[n + 1..];
    if first.status.Raised? {
      assert done + [] == done;
    } else {
      ConcatAssoc(done, first.projects, FetchAll(nodes[n + 1..], first.traffic).projects);
    }
  }

  /** `p` is the project built for `node`: keyed by `node['id']`, with the
      node as its metadata. */
  predicate BuiltFor(p: ProjectState, node: Json)
  {
    p.meta == node && Subscript(node, "id") == Ok(p.id)
  }

  /** `projects[i]` was built for `nodes[i]`, for every `i`. */
  predicate BuiltInOrder(projects: seq<ProjectState>, nodes: seq<Json>)
  {
    |projects| == |nodes| && forall i :: 0 <= i < |nodes| ==> BuiltFor(projects[i], nodes[i])
  }

  lemma BuiltInOrderCons(first: ProjectState, rest: seq<ProjectState>, nodes: seq<Json>)
    requires nodes != [] && BuiltFor(first, nodes[0]) && BuiltInOrder(rest, nodes[1..])
    ensures BuiltInOrder([first] + rest, nodes)
  {
    forall i | 0 < i < |nodes|
      ensures BuiltFor(([first] + rest)[i], nodes[i])
    {
      assert ([first] + rest)[i] == rest[i - 1];
      assert nodes[i] == nodes[1..][i - 1];
    }
  }

  /** A completed loop built one project per node, in node order. */
  lemma {:induction false} FetchAllOnePerNode(nodes: seq<Json>, t: Traffic)
    ensures var b := FetchAll(nodes, t); b.status == Completed ==> BuiltInOrder(b.projects, nodes)
    decreases |nodes|
  {
    if nodes != [] {
      var first := FetchProject(nodes[0], t);
      if first.status == Completed {
        var rest := FetchAll(nodes[1..], first.traffic);
        FetchAllOnePerNode(nodes[1..], first.traffic);
        if rest.status == Completed {
          assert first.projects == [first.projects[0]];
          BuiltInOrderCons(first.projects[0], rest.projects, nodes);
        }
      }
    }
  }

  /** `projects[k]` is the project `FetchProject` builds for `nodes[k]` on
      the traffic the first `k` nodes left behind: its fields, views and
      items are the pages of those three walks. */
  predicate BuiltInTurn(projects: seq<ProjectState>, nodes: seq<Json>, t: Traffic)
  {
    forall k :: 0 <= k < |projects| && k < |nodes| ==>
      var tk := FetchAll(nodes[..k], t).traffic;
      var b := FetchProject(nodes[k], tk);
      b.status == Completed && projects[k] == b.projects[0] && WalkedOn(projects[k], tk, b.traffic)
  }

  lemma FetchAllPrefixTraffic(nodes: seq<Json>, k: nat, t: Traffic)
    requires 1 <= k <= |nodes| && FetchProject(nodes[0], t).status == Completed
    ensures FetchAll(nodes[..k], t).traffic == FetchAll(nodes[1..][..k - 1], FetchProject(nodes[0], t).traffic).traffic
  {
    var prefix := nodes[..k];
    assert prefix[0] == nodes[0];
    assert prefix[1..] == nodes[1..][..k - 1];
  }

  /** A completed loop ran the three walks of node `k` on the traffic that
      the nodes before it left. */
  lemma {:induction false} FetchAllBuildsInTurn(nodes: seq<Json>, t: Traffic)
    ensures var b := FetchAll(nodes, t); b.status == Completed ==> BuiltInTurn(b.projects, nodes, t)
    decreases |nodes|
  {
    if nodes != [] {
      var first := FetchProject(nodes[0], t);
      if first.status == Completed {
        var rest := FetchAll(nodes[1..], first.traffic);
        FetchAllBuildsInTurn(nodes[1..], first.traffic);
        if rest.status == Completed {
          var b := FetchAll(nodes, t);
          assert b.projects == first.projects + rest.projects;
          forall k | 0 <= k < |b.projects| && k < |nodes|
            ensures var tk := FetchAll(nodes[..k], t).traffic;
              var p := FetchProject(nodes[k], tk);
              p.status == Completed && b.projects[k] == p.projects[0] && WalkedOn(b.projects[k], tk, p.traffic)
          {
            if k == 0 {
              assert nodes[..0] == [];
              FetchProjectWalks(nodes[0], t);
            } else {
              FetchAllPrefixTraffic(nodes, k, t);
              assert nodes[k] == nodes[1..][k - 1];
              assert b.projects[k] == rest.projects[k - 1];
            }
          }
        }
      }
    }
  }

  /** `after` is `before` followed by page queries only. */
  predicate PageQueriesAfter(before: seq<Request>, after: seq<Request>)
  {
    |before| <= |after| && after[..|before|] == before &&
    forall i :: |before| <= i < |after| ==> after[i].PageQuery?
  }

  lemma PageQueriesAfterTrans(a: seq<Request>, b: seq<Request>, c: seq<Request>)
    requires PageQueriesAfter(a, b) && PageQueriesAfter(b, c)
    ensures PageQueriesAfter(a, c)
  {
    assert c[..|a|] == c[..|b|][..|a|];
  }

  lemma WalkOnSendsPageQueries(c: Connection, id: Json, t: Traffic)
    ensures PageQueriesAfter(t.sent, WalkOn(c, id, t).traffic.sent)
  {
    var w := WalkOn(c, id, t);
    WalkShape(c, id, Steps(Decoder(c), t.pending), JNull);
    assert forall i :: 0 <= i < |w.run.requests| ==> w.run.requests[i].PageQuery?;
    assert w.traffic.sent[..|t.sent|] == t.sent;
    forall i | |t.sent| <= i < |w.traffic.sent|
      ensures w.traffic.sent[i].PageQuery?
    {
      assert w.traffic.sent[i] == w.run.requests[i - |t.sent|];
    }
  }

  lemma FetchProjectSendsPageQueries(node: Json, t: Traffic)
    ensures PageQueriesAfter(t.sent, FetchProject(node, t).traffic.sent)
  {
    match Subscript(node, "id")
    case Err(e) =>
      assert t.sent[..|t.sent|] == t.sent;
    case Ok(id) =>
      var f := WalkOn(FieldsConnection, id, t);
      WalkOnSendsPageQueries(FieldsConnection, id, t);
      if f.run.status == Completed {
        var v := WalkOn(ViewsConnection, id, f.traffic);
        WalkOnSendsPageQueries(ViewsConnection, id, f.traffic);
        PageQueriesAfterTrans(t.sent, f.traffic.sent, v.traffic.sent);
        if v.run.status == Completed {
          WalkOnSendsPageQueries(ItemsConnection, id, v.traffic);
          PageQueriesAfterTrans(t.sent, v.traffic.sent, WalkOn(ItemsConnection, id, v.traffic).traffic.sent);
        }
      }
  }

  /** After the projects query, every request the loop sends is a page query. */
  lemma {:induction false} FetchAllSendsPageQueries(nodes: seq<Json>, t: Traffic)
    ensures PageQueriesAfter(t.sent, FetchAll(nodes, t).traffic.sent)
    decreases |nodes|
  {
    if nodes == [] {
      assert t.sent[..|t.sent|] == t.sent;
    } else {
      var first := FetchProject(nodes[0], t);
      FetchProjectSendsPageQueries(nodes[0], t);
      if first.status == Completed {
        FetchAllSendsPageQueries(nodes[1..], first.traffic);
        PageQueriesAfterTrans(t.sent, first.traffic.sent, FetchAll(nodes[1..], first.traffic).traffic.sent);
      }
    }
  }

  /** `get_projects` sends exactly one projects query, first: the node list
      is read from a single page and its `pageInfo` is never followed. */
  lemma SingleProjectsQuery(organization: string, t: Traffic)
    ensures PageQueriesAfter(t.sent + [ProjectsQuery(organization)], GetProjectsRun(organization, t).traffic.sent)
  {
    var asked := t.sent + [ProjectsQuery(organization)];
    if t.pending != [] && ProjectNodesOf(t.pending[0]).Ok? {
      FetchAllSendsPageQueries(ProjectNodesOf(t.pending[0]).value, Traffic(asked, t.pending[1..]));
    } else {
      assert asked[..|asked|] == asked;
    }
  }

  /** A first response without `data` makes `get_projects` raise KeyError
      before it builds or fetches anything. */
  lemma MissingDataRaisesKeyError(organization: string, t: Traffic)
    requires t.pending != [] && t.pending[0].JObj? && "data" !in t.pending[0].members
    ensures GetProjectsRun(organization, t) ==
              Batch([], Traffic(t.sent + [ProjectsQuery(organization)], t.pending[1..]), Raised(KeyError))
  {
  }

  /** A completed `get_projects` returns one project per element of
      `data.organization.projectsV2.nodes`, in order, each keyed by its
      node's `id`, carrying the node as metadata, and holding the pages of
      its three walks, run after those of the projects before it. */
  lemma OneProjectPerNode(organization: string, t: Traffic)
    requires GetProjectsRun(organization, t).status == Completed
    ensures t.pending != [] && Path(t.pending[0], ProjectNodes).Ok?
    ensures var nodes := Elements(Path(t.pending[0], ProjectNodes).value);
      var b := GetProjectsRun(organization, t);
      nodes.Ok? && BuiltInOrder(b.projects, nodes.value)
    ensures var nodes := Elements(Path(t.pending[0], ProjectNodes).value);
      var b := GetProjectsRun(organization, t);
      nodes.Ok? && BuiltInTurn(b.projects, nodes.value, Traffic(t.sent + [ProjectsQuery(organization)], t.pending[1..]))
  {
    FetchAllOnePerNode(ProjectNodesOf(t.pending[0]).value, Traffic(t.sent + [ProjectsQuery(organization)], t.pending[1..]));
    FetchAllBuildsInTurn(ProjectNodesOf(t.pending[0]).value, Traffic(t.sent + [ProjectsQuery(organization)], t.pending[1..]));
  }

  class GitHub {
    const organization: string
    /** The endpoint every call posts to. */
    const net: Network

    constructor (organization: string, net: Network)
      ensures this.organization == organization && this.net == net
    {
      this.organization := organization;
      this.net := net;
    }

    /** `Project(project_id = node['id'])`, `project.project_meta = node`
        and the three fetches: the loop body of `get_projects`. */
    method LoadProject(node: Json) returns (r: Result<Project>)
      modifies net
      ensures var b := FetchProject(node, Traffic(old(net.sent), old(net.pending)));
        && net.sent == b.traffic.sent && net.pending == b.traffic.pending
        && (r.Ok? <==> b.status == Completed)
        && (r.Err? ==> b.status == Raised(r.error))
        && (r.Ok? ==> fresh(r.value) && b.projects == [r.value.State()])
    {
      var id := Subscript(node, "id");
      if id.Err? {
        return Err(id.error);
      }
      var project := new Project(id.value);
      project.projectMeta := node;
      var status, f := project.FetchFields(net);
      ghost var v := f;
      ghost var i := f;
      if status == Completed {
        status, v := project.FetchViews(net);
        if status == Completed {
          status, i := project.FetchItems(net);
          assert project.State() == ProjectState(id.value, node, f.pages, v.pages, i.pages);
        }
      }
      r := if status == Completed then Ok(project) else Err(status.error);
    }

    /** `get_projects`: the projects, or the exception it raises. */
    method GetProjects() returns (r: Result<seq<Project>>)
      modifies net
      ensures var b := GetProjectsRun(organization, Traffic(old(net.sent), old(net.pending)));
        && net.sent == b.traffic.sent && net.pending == b.traffic.pending
        && (r.Ok? <==> b.status == Completed)
        && (r.Err? ==> b.status == Raised(r.error))
        && (r.Ok? ==> States(r.value) == b.projects && forall p :: p in r.value ==> fresh(p))
    {
      var response := net.Post(ProjectsQuery(organization));
      if response.Err? {
        return Err(response.error);
      }
      var found := ProjectNodesOf(response.value);
      if found.Err? {
        return Err(found.error);
      }
      r := LoadAll(found.value);
    }

    /** The loop of `get_projects` over the node list: one `Project` per
        node, each fetched in full before the next. */
    method LoadAll(nodes: seq<Json>) returns (r: Result<seq<Project>>)
      modifies net
      ensures var b := FetchAll(nodes, Traffic(old(net.sent), old(net.pending)));
        && net.sent == b.traffic.sent && net.pending == b.traffic.pending
        && (r.Ok? <==> b.status == Completed)
        && (r.Err? ==> b.status == Raised(r.error))
        && (r.Ok? ==> States(r.value) == b.projects && forall p :: p in r.value ==> fresh(p))
    {
      ghost var states: seq<ProjectState> := [];
      var projects: seq<Project> := [];
      var n := 0;
      assert nodes[0..] == nodes;
      while n < |nodes|
        invariant n <= |nodes|
        invariant FetchAll(nodes, Traffic(old(net.sent), old(net.pending))) ==
                    After(states, FetchAll(nodes[n..], Traffic(net.sent, net.pending)))
        invariant States(projects) == states
        invariant forall p :: p in projects ==> fresh(p)
      {
        ghost var first := FetchProject(nodes[n], Traffic(net.sent, net.pending));
        FetchAllAdvance(nodes, n, Traffic(net.sent, net.pending), states, first);
        var loaded := LoadProject(nodes[n]);
        if loaded.Err? {
          return Err(loaded.error);
        }
        var project := loaded.value;
        states := states + [project.State()];
        StatesSnoc(projects, project);
        projects := projects + [project];
        n := n + 1;
      }
      assert states + [] == states;
      r := Ok(projects);
    }

    /** Post one request built from the call's arguments (nothing is sent
        when building it raised) and decode the reply. */
    method Send<T>(request: Result<Request>, decode: Json -> Result<T>) returns (r: Result<T>)
      modifies net
      ensures var call := Exchange(request, old(net.pending), decode);
        && r == call.result
        && net.sent == old(net.sent) + call.sent
        && net.pending == old(net.pending)[call.consumed..]
    {
      if request.Err? {
        return Err(request.error);
      }
      var response := net.Post(request.value);
      if response.Err? {
        return Err(response.error);
      }
      r := decode(response.value);
    }

    /** `create_project(project, owner_id)`: the new project's id. */
    method CreateProject(project: Json, ownerId: Json) returns (r: Result<Json>)
      modifies net
      ensures var call := Exchange(CreateProjectRequest(project, ownerId), old(net.pending), CreateProjectOutcome);
        && r == call.result
        && net.sent == old(net.sent) + call.sent
        && net.pending == old(net.pending)[call.consumed..]
    {
      r := Send(CreateProjectRequest(project, ownerId), CreateProjectOutcome);
    }

    /** `update_project(project_id, project)`: the updated id and title. */
    method UpdateProject(projectId: Json, project: Json) returns (r: Result<(Json, Json)>)
      modifies net
      ensures var call := Exchange(UpdateProjectRequest(projectId, project), old(net.pending), UpdateProjectOutcome);
        && r == call.result
        && net.sent == old(net.sent) + call.sent
        && net.pending == old(net.pending)[call.consumed..]
    {
      r := Send(UpdateProjectRequest(projectId, project), UpdateProjectOutcome);
    }

    /** `create_fields(project_id, fields)`: success is `None` (`JNull`). */
    method CreateFields(projectId: Json, fields: Json) returns (r: Result<Json>)
      modifies net
      ensures var call := Exchange(CreateFieldRequest(projectId, fields), old(net.pending), CreateFieldOutcome);
        && r == call.result
        && net.sent == old(net.sent) + call.sent
        && net.pending == old(net.pending)[call.consumed..]
    {
      r := Send(CreateFieldRequest(projectId, fields), CreateFieldOutcome);
    }

    /** `get_content(repository, number)`, with the organization as owner. */
    method GetContent(repository: Json, number: Json) returns (r: Result<Json>)
      modifies net
      ensures var call := Exchange(Ok(ContentQuery(organization, repository, number)), old(net.pending), GetContentOutcome);
        && r == call.result
        && net.sent == old(net.sent) + call.sent
        && net.pending == old(net.pending)[call.consumed..]
    {
      r := Send(Ok(ContentQuery(organization, repository, number)), GetContentOutcome);
    }

    /** `add_project_item(project_id, content_id)`: the added item. */
    method AddProjectItem(projectId: Json, contentId: Json) returns (r: Result<Json>)
      modifies net
      ensures var call := Exchange(Ok(AddItemMutation(projectId, contentId)), old(net.pending), AddItemOutcome);
        && r == call.result
        && net.sent == old(net.sent) + call.sent
        && net.pending == old(net.pending)[call.consumed..]
    {
      r := Send(Ok(AddItemMutation(projectId, contentId)), AddItemOutcome);
    }
  }
}
