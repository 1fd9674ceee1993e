/** The HTTP transport (`httplib2.Http` in the script), replaced by a scripted list of
    replies. Every request takes the next reply; once the script is used up, a request
    fails as a network error would. */
module Http {
  import opened Values

  /** What one GET brings back: a status and a body, or a transport exception. */
  datatype Response = Response(status: int, body: Bytes) | NetworkFailure

  /** A GET the script issued. A graph request is kept as its edge path and query
      parameters; the URI is `urljoin` of the graph endpoint and `edge + "?" + urlencode(query)`. */
  datatype Request =
    | GraphRequest(edge: string, query: map<string, Json>)
    | FileRequest(uri: string)

  /** The reply the next request receives. */
  function NextResponse(pending: seq<Response>): (r: Response)
    ensures pending == [] ==> r == NetworkFailure
    ensures pending != [] ==> r == pending[0]
  {
    if pending == [] then NetworkFailure else pending[0]
  }

  /** The replies left after one more request. */
  function Remaining(pending: seq<Response>): (r: seq<Response>)
    ensures pending != [] ==> |r| < |pending| && r == pending[1..]
    ensures pending == [] ==> r == []
  {
    if pending == [] then [] else pending[1..]
  }

  class Transport {
    /** Replies still to be handed out, in order. */
    var pending: seq<Response>
    /** Every request issued so far, in order. */
    var sent: seq<Request>

    constructor (script: seq<Response>)
      ensures pending == script && sent == []
    {
      pending := script;
      sent := [];
    }

    /** `self.http.request(uri, method='GET')` */
    method Get(req: Request) returns (resp: Response)
      modifies this
      ensures resp == NextResponse(old(pending))
      ensures pending == Remaining(old(pending))
      ensures sent == old(sent) + [req]
    {
      resp := NextResponse(pending);
      pending := Remaining(pending);
      sent := sent + [req];
    }
  }
}
