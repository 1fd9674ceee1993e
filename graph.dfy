/** One call to the graph API (`FacebookConn.graph_get`): the access token is written
    into the caller's query parameters, one GET is issued, and the reply is classified
    into a decoded document, the empty object, or a raised error. */
module Graph {
  import opened Values
  import opened Http

  /** `json.loads`, seen from outside: a document, or None where it raises ValueError. */
  type Decoder = Bytes -> Option<Json>

  /** A query-parameter dict. */
  type Params = map<string, Json>

  const TokenKey: string := "access_token"

  /** `query_params['access_token'] = self.access_token`: the token overwrites any
      earlier value of that key and every other key keeps its value. */
  function Authorize(query: Params, token: string): (q: Params)
    ensures q.Keys == query.Keys + {TokenKey}
    ensures q[TokenKey] == Str(token)
    ensures forall k :: k in query && k != TokenKey ==> q[k] == query[k]
  {
    query[TokenKey := Str(token)]
  }

  /** The exception raised for a decoded error body: `error.code` and
      `error.error_subcode`, each None when absent. A body that is not a dict, or whose
      `error` member is present but not a dict, makes `.get` raise instead. */
  function EnvelopeFailure(info: Json): (f: Failure)
    ensures f.GraphError? || f == TypeFault
    ensures f.GraphError? <==> info.Obj? && ("error" in info.fields ==> info.fields["error"].Obj?)
    ensures f.GraphError? && "error" !in info.fields ==> f == GraphError(Null, Null)
    ensures f.GraphError? && "error" in info.fields ==>
      var e := info.fields["error"].fields;
      && f.code == (if "code" in e then e["code"] else Null)
      && f.subcode == (if "error_subcode" in e then e["error_subcode"] else Null)
  {
    match Lookup(info, ["error", "code"])
    case Raise(e) => e
    case Ok(code) =>
      match Lookup(info, ["error", "error_subcode"])
      case Raise(e) => e
      case Ok(subcode) => GraphError(code, subcode)
  }

  /** The decision `graph_get` takes on the reply to its GET. */
  function Classify(resp: Response, decode: Decoder): (r: Outcome<Json>)
    // the transport's own exception propagates
    ensures resp.NetworkFailure? ==> r == Raise(TransportFault)
    // an empty body never raises, whatever the status
    ensures resp.Response? && resp.body == [] ==> r == Ok(EmptyObject)
    // a body that does not decode never raises, whatever the status
    ensures resp.Response? && resp.body != [] && decode(resp.body).None? ==> r == Ok(EmptyObject)
    // status 200 with a decodable body: the decoded document
    ensures resp.Response? && resp.status == 200 && resp.body != [] && decode(resp.body).Some? ==>
      r == Ok(decode(resp.body).value)
    // any other status with a decodable body: the error it carries is raised
    ensures resp.Response? && resp.status != 200 && resp.body != [] && decode(resp.body).Some? ==>
      r == Raise(EnvelopeFailure(decode(resp.body).value))
    // only a non-200 reply with a decodable body raises anything but a transport error
    ensures r.Raise? && r.failure != TransportFault ==>
      resp.Response? && resp.status != 200 && resp.body != [] && decode(resp.body).Some?
  {
    match resp
    case NetworkFailure => Raise(TransportFault)
    case Response(status, body) =>
      if status == 200 && body != [] then
        match decode(body)
        case None => Ok(EmptyObject)
        case Some(doc) => Ok(doc)
      else if body != [] then
        match decode(body)
        case None => Ok(EmptyObject)
        case Some(info) => Raise(EnvelopeFailure(info))
      else
        Ok(EmptyObject)
  }

  /** The status, not the shape of the body, decides how a body is read: the same
      error envelope is data under 200 and a raised error under any other status. */
  lemma StatusDecidesReading(status: int, body: Bytes, decode: Decoder, code: int, subcode: int)
    requires status != 200 && body != []
    requires decode(body) == Some(Obj(map["error" := Obj(map["code" := Num(code), "error_subcode" := Num(subcode)])]))
    ensures Classify(Response(200, body), decode) == Ok(decode(body).value)
    ensures Classify(Response(status, body), decode) == Raise(GraphError(Num(code), Num(subcode)))
  {
    var e := map["code" := Num(code), "error_subcode" := Num(subcode)];
    assert decode(body).value.fields["error"].fields == e;
  }

  /** What one `graph_get` call did: its outcome, the caller's dict afterwards, the
      requests it issued and the replies it left. */
  datatype Trace<+T> = Trace(outcome: Outcome<T>, query: Params, requests: seq<Request>, pending: seq<Response>)

  /** One `graph_get(edge, query)` against the replies `pending`. */
  function Get(token: string, edge: string, decode: Decoder, query: Params, pending: seq<Response>): (t: Trace<Json>)
    ensures t.outcome.Ok? ==> pending != [] && t.pending == pending[1..]
  {
    var q := Authorize(query, token);
    Trace(Classify(NextResponse(pending), decode), q, [GraphRequest(edge, q)], Remaining(pending))
  }
}
