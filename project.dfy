/** The `Project` class of util/github.py: a project object whose three
    accumulators the fetch loops grow in place. */
module Projects {
  import opened Wrappers
  import opened Json
  import opened Transport
  import opened Paging

  /** The abstract value of a `Project` object. */
  datatype ProjectState = ProjectState(id: Json, meta: Json, fields: seq<Json>, views: seq<Json>, items: seq<Json>)

  /** The states of several projects, in order. */
  function States(ps: seq<Project>): (r: seq<ProjectState>)
    reads ps
    ensures |r| == |ps|
  {
    if ps == [] then [] else [ps[0].State()] + States(ps[1..])
  }

  lemma {:induction false} StatesSnoc(ps: seq<Project>, p: Project)
    ensures States(ps + [p]) == States(ps) + [p.State()]
    decreases |ps|
  {
    if ps != [] {
      assert (ps + [p])[1..] == ps[1..] + [p];
      StatesSnoc(ps[1..], p);
    } else {
      assert States([p]) == [p.State()] + States([]);
    }
  }

  class Project {
    var projectId: Json
    var projectMeta: Json
    var fields: seq<Json>
    var views: seq<Json>
    var items: seq<Json>

    /** `Project(project_id)`: no metadata yet (an empty list) and three
        empty accumulators. */
    constructor (id: Json)
      ensures State() == ProjectState(id, JArr([]), [], [], [])
    {
      projectId := id;
      projectMeta := JArr([]);
      fields := [];
      views := [];
      items := [];
    }

    function State(): ProjectState
      reads this
    {
      ProjectState(projectId, projectMeta, fields, views, items)
    }

    /** The loop body up to the `hasNextPage` test: post the page query with
        the current cursor and apply `decode` to the response (`Err` when
        none came). */
    method FetchPage(c: Connection, net: Network, cursor: Json, decode: Json -> PageStep)
      returns (received: Result<PageStep>)
      modifies net
      ensures received == if old(net.pending) == [] then Err(TransportError) else Ok(decode(old(net.pending)[0]))
      ensures net.sent == old(net.sent) + [PageQuery(c, projectId, cursor)]
      ensures Consumes(received) <= |old(net.pending)| && net.pending == old(net.pending)[Consumes(received)..]
    {
      var response := net.Post(PageQuery(c, projectId, cursor));
      received := if response.Ok? then Ok(decode(response.value)) else Err(response.error);
    }

    /** The `while True` loop shared by `fetch_fields`, `fetch_views` and
        `fetch_items`: post a page query with the current cursor, collect the
        page's `nodes`, and go on with `endCursor` while `hasNextPage` holds.
        Returns how the Python method ends (normally, or by the exception it
        raises) and the pages it appended up to then.  The connection's
        decoding of a response, `Decoder(c)`, is passed in as `decode`. */
    method Fetch(c: Connection, net: Network, decode: Json -> PageStep) returns (status: Status, pages: seq<Json>)
      modifies net
      ensures var run := Walk(c, projectId, Steps(decode, old(net.pending)), JNull);
        && status == run.status && pages == run.pages
        && net.pending == old(net.pending)[run.consumed..]
        && net.sent == old(net.sent) + run.requests
    {
      var cursor := JNull;
      ghost var steps := Steps(decode, net.pending);
      ghost var total := Walk(c, projectId, steps, cursor);
      ghost var requests: seq<Request> := [];
      ghost var consumed: nat := 0;
      assert steps[0..] == steps;
      pages := [];
      status := Completed;
      var running := true;
      while running
        invariant |steps| == |old(net.pending)| && consumed <= |steps|
        invariant net.pending == old(net.pending)[consumed..] && net.sent == old(net.sent) + requests
        invariant total == if running then Then(pages, requests, consumed, Walk(c, projectId, steps[consumed..], cursor))
                           else Run(pages, requests, consumed, status)
        decreases |net.pending| + (if running then 1 else 0)
      {
        ghost var done, asked, k, from := pages, requests, consumed, cursor;
        var received := FetchPage(c, net, cursor, decode);
        if k < |steps| {
          assert old(net.pending)[k..][0] == old(net.pending)[k];
        }
        Proceed(c, projectId, steps, k, from, done, asked, received);
        pages := pages + Appends(received);
        requests, consumed := asked + [PageQuery(c, projectId, from)], k + Consumes(received);
        ConcatAssoc(old(net.sent), asked, [PageQuery(c, projectId, from)]);
        assert old(net.pending)[consumed..] == old(net.pending)[k..][Consumes(received)..];
        running := GoesOn(received);
        if running {
          cursor := received.value.next.cursor;
        } else {
          status := Ending(received);
        }
      }
    }

    /** `fetch_fields` */
    method FetchFields(net: Network) returns (status: Status, ghost run: Run)
      modifies this, net
      ensures run == Paginate(FieldsConnection, old(projectId), old(net.pending), JNull)
      ensures status == run.status
      ensures fields == old(fields) + run.pages
      ensures projectId == old(projectId) && projectMeta == old(projectMeta)
      ensures views == old(views) && items == old(items)
      ensures net.pending == old(net.pending)[run.consumed..]
      ensures net.sent == old(net.sent) + run.requests
    {
      var pages;
      status, pages := Fetch(FieldsConnection, net, Decoder(FieldsConnection));
      fields := fields + pages;
      run := Paginate(FieldsConnection, projectId, old(net.pending), JNull);
    }

    /** `fetch_views` */
    method FetchViews(net: Network) returns (status: Status, ghost run: Run)
      modifies this, net
      ensures run == Paginate(ViewsConnection, old(projectId), old(net.pending), JNull)
      ensures status == run.status
      ensures views == old(views) + run.pages
      ensures projectId == old(projectId) && projectMeta == old(projectMeta)
      ensures fields == old(fields) && items == old(items)
      ensures net.pending == old(net.pending)[run.consumed..]
      ensures net.sent == old(net.sent) + run.requests
    {
      var pages;
      status, pages := Fetch(ViewsConnection, net, Decoder(ViewsConnection));
      views := views + pages;
      run := Paginate(ViewsConnection, projectId, old(net.pending), JNull);
    }

    /** `fetch_items` */
    method FetchItems(net: Network) returns (status: Status, ghost run: Run)
      modifies this, net
      ensures run == Paginate(ItemsConnection, old(projectId), old(net.pending), JNull)
      ensures status == run.status
      ensures items == old(items) + run.pages
      ensures projectId == old(projectId) && projectMeta == old(projectMeta)
      ensures fields == old(fields) && views == old(views)
      ensures net.pending == old(net.pending)[run.consumed..]
      ensures net.sent == old(net.sent) + run.requests
    {
      var pages;
      status, pages := Fetch(ItemsConnection, net, Decoder(ItemsConnection));
      items := items + pages;
      run := Paginate(ItemsConnection, projectId, old(net.pending), JNull);
    }
  }
}
