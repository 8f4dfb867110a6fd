/** The cursor pagination of `Project.fetch_fields`, `fetch_views` and
    `fetch_items` (util/github.py), as a function of the responses the server
    sends.  `Step` is what one loop iteration does with one response;
    `Paginate` is the whole `while True` loop. */
module Paging {
  import opened Wrappers
  import opened Json
  import opened Transport

  /** The connection field each query reads below `data.node`. */
  function ConnectionKey(c: Connection): string
  {
    match c
    case FieldsConnection => "fields"
    case ViewsConnection => "views"
    case ItemsConnection => "items"
  }

  /** What an iteration does after it has appended the page's nodes. */
  datatype Next =
    | Done                    // `hasNextPage` is falsy: `break`
    | Follow(cursor: Json)    // `hasNextPage` is truthy: the next request uses `endCursor`
    | FailedAfter(error: PyError)  // reading `pageInfo` raised after the append

  /** One iteration: it raises before appending anything, or appends the
      page's `nodes` value (as one element) and then decides how to go on. */
  datatype PageStep = Failed(error: PyError) | Appended(nodes: Json, next: Next)

  /** Reading `pageInfo`, `hasNextPage` and `endCursor` of the connection object. */
  function NextOf(connectionData: Json): (n: Next)
    ensures n.Follow? ==>
              Path(connectionData, ["pageInfo", "hasNextPage"]).Ok? && Truthy(Path(connectionData, ["pageInfo", "hasNextPage"]).value)
              && Path(connectionData, ["pageInfo", "endCursor"]) == Ok(n.cursor)
    ensures n == Done ==>
              Path(connectionData, ["pageInfo", "hasNextPage"]).Ok? && !Truthy(Path(connectionData, ["pageInfo", "hasNextPage"]).value)
  {
    match Subscript(connectionData, "pageInfo")
    case Err(e) => FailedAfter(e)
    case Ok(pageInfo) =>
      match Subscript(pageInfo, "hasNextPage")
      case Err(e) => FailedAfter(e)
      case Ok(hasNext) =>
        if !Truthy(hasNext) then Done
        else match Subscript(pageInfo, "endCursor")
          case Err(e) => FailedAfter(e)
          case Ok(cursor) => Follow(cursor)
  }

  /** One loop iteration on the decoded response `data`.  `fetch_views` and
      `fetch_items` first test `'data' not in data` and raise KeyError;
      `fetch_fields` has no such test and fails by subscripting instead. */
  function Step(c: Connection, data: Json): (s: PageStep)
    ensures data.JObj? && "data" !in data.members ==> s == Failed(KeyError)
    ensures s.Appended? ==>
              Path(data, ["data", "node", ConnectionKey(c)]).Ok?
              && Subscript(Path(data, ["data", "node", ConnectionKey(c)]).value, "nodes") == Ok(s.nodes)
              && s.next == NextOf(Path(data, ["data", "node", ConnectionKey(c)]).value)
  {
    var checked := if c == FieldsConnection then Ok(true) else PyIn("data", data);
    match checked
    case Err(e) => Failed(e)
    case Ok(present) =>
      if !present then Failed(KeyError)
      else match Path(data, ["data", "node", ConnectionKey(c)])
        case Err(e) => Failed(e)
        case Ok(connectionData) =>
          match Subscript(connectionData, "nodes")
          case Err(e) => Failed(e)
          case Ok(nodes) => Appended(nodes, NextOf(connectionData))
  }

  /** What an iteration appends: the page's `nodes` value as one element, or
      nothing when it raised first. */
  function AppendedBy(step: PageStep): seq<Json>
  {
    if step.Appended? then [step.nodes] else []
  }

  /** The loop goes on after this iteration (with `endCursor`). */
  predicate Continues(step: PageStep)
  {
    step.Appended? && step.next.Follow?
  }

  /** How the loop ends at an iteration that does not go on. */
  function Outcome(step: PageStep): Status
  {
    match step
    case Failed(e) => Raised(e)
    case Appended(_, FailedAfter(e)) => Raised(e)
    case Appended(_, _) => Completed
  }

  /** The same for an iteration whose request got a response (`Ok(step)`)
      or none (`Err`): what it appends, how many responses it consumes,
      whether the loop goes on, and how it ends otherwise. */
  function Appends(received: Result<PageStep>): seq<Json>
  {
    if received.Ok? then AppendedBy(received.value) else []
  }

  function Consumes(received: Result<PageStep>): nat
  {
    if received.Ok? then 1 else 0
  }

  predicate GoesOn(received: Result<PageStep>)
  {
    received.Ok? && Continues(received.value)
  }

  function Ending(received: Result<PageStep>): Status
  {
    if received.Ok? then Outcome(received.value) else Raised(received.error)
  }

  /** A run of the loop: the elements it appended, the requests it sent, the
      number of responses it consumed, and how it ended. */
  datatype Run = Run(pages: seq<Json>, requests: seq<Request>, consumed: nat, status: Status)

  /** A run that continues, after `pages`, `requests` and `consumed` are
      already done, with the run `rest`. */
  function Then(pages: seq<Json>, requests: seq<Request>, consumed: nat, rest: Run): Run
  {
    Run(pages + rest.pages, requests + rest.requests, consumed + rest.consumed, rest.status)
  }

  /** The decoding of one response by the loop for connection `c`. */
  function Decoder(c: Connection): Json -> PageStep
  {
    data => Step(c, data)
  }

  /** What each response of a supply would make an iteration do, for a given
      decoding of responses. */
  function Steps(decode: Json -> PageStep, responses: seq<Json>): (steps: seq<PageStep>)
    ensures |steps| == |responses|
  {
    seq(|responses|, i requires 0 <= i < |responses| => decode(responses[i]))
  }

  /** The loop started with `cursor`, for project `id`, when the responses it
      receives would make the iterations do `steps`. */
  function Walk(c: Connection, id: Json, steps: seq<PageStep>, cursor: Json): (r: Run)
    ensures r.consumed <= |steps|
    ensures 1 <= |r.requests| && |r.pages| <= r.consumed <= |r.requests| <= r.consumed + 1
    ensures r.status == Completed ==> |r.pages| == |r.requests| == r.consumed
    decreases |steps|
  {
    var request := PageQuery(c, id, cursor);
    if steps == [] then Run([], [request], 0, Raised(TransportError))
    else match steps[0]
      case Failed(e) => Run([], [request], 1, Raised(e))
      case Appended(nodes, Done) => Run([nodes], [request], 1, Completed)
      case Appended(nodes, FailedAfter(e)) => Run([nodes], [request], 1, Raised(e))
      case Appended(nodes, Follow(next)) =>
        var rest := Walk(c, id, steps[1..], next);
        Run([nodes] + rest.pages, [request] + rest.requests, 1 + rest.consumed, rest.status)
  }

  /** Every request of a walk is a page query for the same connection and
      project, the first one with the start cursor. */
  lemma {:induction false} WalkShape(c: Connection, id: Json, steps: seq<PageStep>, cursor: Json)
    ensures var r := Walk(c, id, steps, cursor);
      && r.requests[0] == PageQuery(c, id, cursor)
      && (forall i :: 0 <= i < |r.requests| ==>
            r.requests[i].PageQuery? && r.requests[i].connection == c && r.requests[i].projectId == id)
    decreases |steps|
  {
    if steps != [] && steps[0].Appended? && steps[0].next.Follow? {
      WalkShape(c, id, steps[1..], steps[0].next.cursor);
      var rest := Walk(c, id, steps[1..], steps[0].next.cursor);
      assert Walk(c, id, steps, cursor).requests == [PageQuery(c, id, cursor)] + rest.requests;
    }
  }

  /** The whole `while True` loop of a fetch against a supply of responses. */
  function Paginate(c: Connection, id: Json, responses: seq<Json>, cursor: Json): (r: Run)
    ensures r.consumed <= |responses|
  {
    Walk(c, id, Steps(Decoder(c), responses), cursor)
  }

  /** What the loop does with the first step of a non-empty supply: the run
      of one iteration, continued by the walk of the remaining steps when the
      page asks for more. */
  function StepRun(c: Connection, id: Json, step: PageStep, cursor: Json, rest: seq<PageStep>): Run
  {
    var request := PageQuery(c, id, cursor);
    match step
    case Failed(e) => Run([], [request], 1, Raised(e))
    case Appended(nodes, Done) => Run([nodes], [request], 1, Completed)
    case Appended(nodes, FailedAfter(e)) => Run([nodes], [request], 1, Raised(e))
    case Appended(nodes, Follow(next)) => Then([nodes], [request], 1, Walk(c, id, rest, next))
  }

  lemma WalkUnfold(c: Connection, id: Json, steps: seq<PageStep>, cursor: Json)
    requires steps != []
    ensures Walk(c, id, steps, cursor) == StepRun(c, id, steps[0], cursor, steps[1..])
  {
  }

  /** One more iteration of a loop that has already appended `done`, sent
      `asked` and consumed `k` responses: a response was received, and its
      step decides how the run goes on. */
  lemma Advance(c: Connection, id: Json, steps: seq<PageStep>, k: nat, cursor: Json,
                done: seq<Json>, asked: seq<Request>)
    requires k < |steps|
    ensures var step, request := steps[k], PageQuery(c, id, cursor);
      Then(done, asked, k, Walk(c, id, steps[k..], cursor)) ==
        if Continues(step)
        then Then(done + AppendedBy(step), asked + [request], k + 1, Walk(c, id, steps[k + 1..], step.next.cursor))
        else Run(done + AppendedBy(step), asked + [request], k + 1, Outcome(step))
  {
    var request := PageQuery(c, id, cursor);
    assert steps[k..][0] == steps[k];
    assert steps[k..][1..] == steps[k + 1..];
    match steps[k]
    case Failed(e) =>
      assert done + [] == done;
    case Appended(nodes, next) =>
      match next
      case Done =>
      case FailedAfter(e) =>
      case Follow(n) =>
        var more := Walk(c, id, steps[k + 1..], n);
        ConcatAssoc(done, [nodes], more.pages);
        ConcatAssoc(asked, [request], more.requests);
  }

  /** The iteration that finds the supply used up ends the run with a
      transport failure. */
  lemma Exhausted(c: Connection, id: Json, steps: seq<PageStep>, cursor: Json,
                  done: seq<Json>, asked: seq<Request>)
    ensures Then(done, asked, |steps|, Walk(c, id, steps[|steps|..], cursor)) ==
              Run(done, asked + [PageQuery(c, id, cursor)], |steps|, Raised(TransportError))
  {
    assert steps[|steps|..] == [];
    assert done + [] == done;
  }

  /** One more iteration of a loop that has already appended `done`, sent
      `asked` and consumed `k` responses, whether or not a response remained:
      the iteration itself, then the rest of the run if it goes on. */
  lemma Proceed(c: Connection, id: Json, steps: seq<PageStep>, k: nat, cursor: Json,
                done: seq<Json>, asked: seq<Request>, received: Result<PageStep>)
    requires k <= |steps|
    requires received == if k == |steps| then Err(TransportError) else Ok(steps[k])
    ensures var pages, requests, consumed := done + Appends(received), asked + [PageQuery(c, id, cursor)], k + Consumes(received);
      Then(done, asked, k, Walk(c, id, steps[k..], cursor)) ==
        if GoesOn(received) then Then(pages, requests, consumed, Walk(c, id, steps[consumed..], received.value.next.cursor))
        else Run(pages, requests, consumed, Ending(received))
  {
    if k == |steps| {
      Exhausted(c, id, steps, cursor, done, asked);
      assert done + [] == done;
    } else {
      Advance(c, id, steps, k, cursor, done, asked);
    }
  }

  /** Page `i` of the accumulator is the `nodes` value of the `i`-th response,
      appended whole (not flattened), in fetch order. */
  lemma {:induction false} PagesInOrder(c: Connection, id: Json, steps: seq<PageStep>, cursor: Json)
    ensures var r := Walk(c, id, steps, cursor);
      forall i :: 0 <= i < |r.pages| ==> steps[i].Appended? && steps[i].nodes == r.pages[i]
    decreases |steps|
  {
    if steps != [] && steps[0].Appended? && steps[0].next.Follow? {
      PagesInOrder(c, id, steps[1..], steps[0].next.cursor);
    }
  }

  /** Each request after the first is sent only because the previous response
      said `hasNextPage`, and it carries that response's `endCursor`. */
  lemma {:induction false} CursorsFollowEndCursor(c: Connection, id: Json, steps: seq<PageStep>, cursor: Json)
    ensures var r := Walk(c, id, steps, cursor);
      forall i :: 0 <= i < |r.requests| - 1 ==>
        steps[i].Appended? && steps[i].next.Follow? && r.requests[i + 1] == PageQuery(c, id, steps[i].next.cursor)
    decreases |steps|
  {
    if steps != [] && steps[0].Appended? && steps[0].next.Follow? {
      var next := steps[0].next.cursor;
      CursorsFollowEndCursor(c, id, steps[1..], next);
      WalkShape(c, id, steps[1..], next);
    }
  }

  /** A completed run ended on a response whose `hasNextPage` was falsy; with
      CursorsFollowEndCursor, that response is the first such one. */
  lemma {:induction false} StopsAtLastPage(c: Connection, id: Json, steps: seq<PageStep>, cursor: Json)
    ensures var r := Walk(c, id, steps, cursor);
      r.status == Completed ==>
        r.consumed >= 1 && steps[r.consumed - 1] == Appended(r.pages[r.consumed - 1], Done)
    decreases |steps|
  {
    if steps != [] && steps[0].Appended? && steps[0].next.Follow? {
      var next := steps[0].next.cursor;
      var r := Walk(c, id, steps, cursor);
      var rest := Walk(c, id, steps[1..], next);
      assert r == Then([steps[0].nodes], [PageQuery(c, id, cursor)], 1, rest) by {
        WalkUnfold(c, id, steps, cursor);
      }
      if r.status == Completed {
        StopsAtLastPage(c, id, steps[1..], next);
        var k := rest.consumed - 1;
        assert r.consumed - 1 == k + 1;
        assert steps[k + 1] == steps[1..][k];
        assert r.pages[k + 1] == rest.pages[k];
      }
    }
  }

  /** An iteration that raises before appending, reached after `k` pages that
      each asked for more, ends the run with that exception: the failing page
      is not appended and the `k` pages before it are kept. */
  lemma {:induction false} FailureKeepsEarlierPages(c: Connection, id: Json, steps: seq<PageStep>, cursor: Json, k: nat)
    requires k < |steps| && steps[k].Failed?
    requires forall i :: 0 <= i < k ==> steps[i].Appended? && steps[i].next.Follow?
    ensures var r := Walk(c, id, steps, cursor);
      r.status == Raised(steps[k].error) && |r.pages| == k && r.consumed == k + 1 && |r.requests| == k + 1
    decreases k
  {
    if k > 0 {
      forall i | 0 <= i < k - 1
        ensures steps[1..][i].Appended? && steps[1..][i].next.Follow?
      {
        assert steps[1..][i] == steps[i + 1];
      }
      FailureKeepsEarlierPages(c, id, steps[1..], steps[0].next.cursor, k - 1);
    }
  }

  /** A response without `data` makes every one of the three fetches raise
      KeyError before it appends anything. */
  lemma MissingDataFails(c: Connection, data: Json)
    requires data.JObj? && "data" !in data.members
    ensures Step(c, data) == Failed(KeyError)
  {
    assert Path(data, ["data", "node", ConnectionKey(c)]) == Err(KeyError);
  }

  /** A well-formed page response as the API sends it. */
  function PageResponse(c: Connection, nodes: Json, hasNextPage: bool, endCursor: Json): Json
  {
    JObj(map["data" := JObj(map["node" := JObj(map[ConnectionKey(c) := JObj(map[
      "nodes" := nodes,
      "pageInfo" := JObj(map["hasNextPage" := JBool(hasNextPage), "endCursor" := endCursor])])])])])
  }

  lemma StepOfPageResponse(c: Connection, nodes: Json, hasNextPage: bool, endCursor: Json)
    ensures Step(c, PageResponse(c, nodes, hasNextPage, endCursor)) ==
              Appended(nodes, if hasNextPage then Follow(endCursor) else Done)
  {
    var pageInfo := JObj(map["hasNextPage" := JBool(hasNextPage), "endCursor" := endCursor]);
    var connectionData := JObj(map["nodes" := nodes, "pageInfo" := pageInfo]);
    var node := JObj(map[ConnectionKey(c) := connectionData]);
    var data := JObj(map["node" := node]);
    var response := PageResponse(c, nodes, hasNextPage, endCursor);
    assert response == JObj(map["data" := data]);
    var keys := ["data", "node", ConnectionKey(c)];
    assert Path(connectionData, keys[3..]) == Ok(connectionData);
    assert Path(node, keys[2..]) == Ok(connectionData);
    assert Path(data, keys[1..]) == Ok(connectionData);
    assert Path(response, keys) == Ok(connectionData);
    assert NextOf(connectionData) == if hasNextPage then Follow(endCursor) else Done;
  }

  /** A server that serves `pages` in order, every page but the last saying
      that more follow, page `i` carrying end cursor `ends[i]`. */
  function Served(c: Connection, pages: seq<Json>, ends: seq<Json>): (rs: seq<Json>)
    requires |ends| == |pages|
    ensures |rs| == |pages|
  {
    seq(|pages|, i requires 0 <= i < |pages| => PageResponse(c, pages[i], i < |pages| - 1, ends[i]))
  }

  function PageRequests(c: Connection, id: Json, cursors: seq<Json>): (qs: seq<Request>)
    ensures |qs| == |cursors|
  {
    seq(|cursors|, i requires 0 <= i < |cursors| => PageQuery(c, id, cursors[i]))
  }

  lemma PageRequestsCons(c: Connection, id: Json, first: Json, rest: seq<Json>)
    ensures PageRequests(c, id, [first] + rest) == [PageQuery(c, id, first)] + PageRequests(c, id, rest)
  {
  }

  /** Steps that append `pages` in order, following `ends` until the last page. */
  lemma {:induction false} WalkFollowsPages(c: Connection, id: Json, steps: seq<PageStep>, pages: seq<Json>,
                                            ends: seq<Json>, cursor: Json)
    requires |pages| == |ends| && 0 < |pages| <= |steps|
    requires forall i :: 0 <= i < |pages| ==>
               steps[i] == Appended(pages[i], if i < |pages| - 1 then Follow(ends[i]) else Done)
    ensures Walk(c, id, steps, cursor) ==
              Run(pages, PageRequests(c, id, [cursor] + ends[..|pages| - 1]), |pages|, Completed)
    decreases |pages|
  {
    var r := Walk(c, id, steps, cursor);
    PageRequestsCons(c, id, cursor, ends[..|pages| - 1]);
    assert steps[0] == Appended(pages[0], if |pages| > 1 then Follow(ends[0]) else Done);
    WalkUnfold(c, id, steps, cursor);
    if |pages| > 1 {
      var rest := Walk(c, id, steps[1..], ends[0]);
      assert r == Then([pages[0]], [PageQuery(c, id, cursor)], 1, rest);
      assert rest == Run(pages[1..], PageRequests(c, id, [ends[0]] + ends[1..][..|pages| - 2]),
                         |pages| - 1, Completed) by {
        forall i | 0 <= i < |pages| - 1
          ensures steps[1..][i] == Appended(pages[1..][i], if i < |pages| - 2 then Follow(ends[1..][i]) else Done)
        {
          assert steps[1..][i] == steps[i + 1];
        }
        WalkFollowsPages(c, id, steps[1..], pages[1..], ends[1..], ends[0]);
      }
      assert [ends[0]] + ends[1..][..|pages| - 2] == ends[..|pages| - 1];
      assert [pages[0]] + pages[1..] == pages;
    } else {
      assert ends[..0] == [];
      assert r == Run([pages[0]], [PageQuery(c, id, cursor)], 1, Completed);
    }
  }

  /** For a project with N > 0 pages, the loop returns exactly those N pages in
      order, sends N requests (the first with the start cursor, each later one
      with the previous page's end cursor), and reads no response after the
      page whose `hasNextPage` is false. */
  lemma PaginateServedPages(c: Connection, id: Json, pages: seq<Json>, ends: seq<Json>,
                            extra: seq<Json>, cursor: Json)
    requires |pages| == |ends| && |pages| > 0
    ensures Paginate(c, id, Served(c, pages, ends) + extra, cursor) ==
              Run(pages, PageRequests(c, id, [cursor] + ends[..|pages| - 1]), |pages|, Completed)
  {
    var rs := Served(c, pages, ends) + extra;
    var steps := Steps(Decoder(c), rs);
    forall i | 0 <= i < |pages|
      ensures steps[i] == Appended(pages[i], if i < |pages| - 1 then Follow(ends[i]) else Done)
    {
      assert rs[i] == PageResponse(c, pages[i], i < |pages| - 1, ends[i]);
      StepOfPageResponse(c, pages[i], i < |pages| - 1, ends[i]);
    }
    WalkFollowsPages(c, id, steps, pages, ends, cursor);
  }
}
