/** The GraphQL endpoint, replaced by a finite supply of responses.  Every
    `requests.post(...)` in util/github.py becomes one `Network.Post`: the
    request (query kind and variables) is logged, and the next response of the
    supply is handed back, or a transport failure once the supply is used up.
    The query texts themselves carry no behaviour and are named by the kind of
    request only. */
module Transport {
  import opened Wrappers
  import opened Json

  /** Which connection of a project a page query walks. */
  datatype Connection = FieldsConnection | ViewsConnection | ItemsConnection

  /** One request, with the variables the source sends along with it. */
  datatype Request =
    | PageQuery(connection: Connection, projectId: Json, cursor: Json)
    | ProjectsQuery(organization: string)
    | CreateProjectMutation(title: Json, ownerId: Json)
    | UpdateProjectMutation(id: Json, title: Json, closed: Json, public: Json,
                            readme: Json, shortDescription: Json)
    | CreateFieldMutation(projectId: Json, dataType: Json, name: Json)
    | ContentQuery(owner: string, repository: Json, number: Json)
    | AddItemMutation(projectId: Json, contentId: Json)

  /** What a `Network` holds, as a value: the requests posted so far and
      the responses not yet delivered. */
  datatype Traffic = Traffic(sent: seq<Request>, pending: seq<Json>)

  class Network {
    /** Responses not yet delivered, in the order the server sends them. */
    var pending: seq<Json>
    /** Every request posted so far, in order. */
    var sent: seq<Request>

    constructor (responses: seq<Json>)
      ensures pending == responses && sent == []
    {
      pending := responses;
      sent := [];
    }

    method Post(request: Request) returns (r: Result<Json>)
      modifies this
      ensures sent == old(sent) + [request]
      ensures old(pending) == [] ==> r == Err(TransportError) && pending == []
      ensures old(pending) != [] ==> r == Ok(old(pending)[0]) && pending == old(pending)[1..]
    {
      sent := sent + [request];
      if pending == [] {
        r := Err(TransportError);
      } else {
        r := Ok(pending[0]);
        pending := pending[1..];
      }
    }
  }
}
