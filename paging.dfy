/** Cursor pagination (`FacebookConn.graph_get_all`): one `graph_get`, then one more for
    every non-empty `paging.cursors.after` cursor, with each page's `data` appended in
    arrival order. */
module Paging {
  import opened Values
  import opened Http
  import opened Graph

  const AfterKey: string := "after"
  const DataKey: string := "data"

  /** The pagination state machine's transition on the last page received: Done (None)
      when the page is empty or carries no non-empty `after` cursor, HasNext(cursor)
      otherwise. `.get` on a non-dict `paging` or `cursors` raises. */
  function NextCursor(page: Json): (r: Outcome<Option<Json>>)
    ensures !Truthy(page) ==> r == Ok(None)
    ensures r.Ok? && r.value.Some? ==>
      Truthy(page) && Truthy(r.value.value) && Lookup(page, ["paging", "cursors", AfterKey]) == Ok(r.value.value)
    ensures r.Ok? && r.value.None? && Truthy(page) ==>
      Lookup(page, ["paging", "cursors", AfterKey]).Ok? && !Truthy(Lookup(page, ["paging", "cursors", AfterKey]).value)
    ensures r.Raise? <==> Truthy(page) && Lookup(page, ["paging", "cursors", AfterKey]).Raise?
    ensures r.Raise? ==> r.failure == TypeFault
  {
    if !Truthy(page) then Ok(None)
    else
      match Lookup(page, ["paging", "cursors", AfterKey])
      case Raise(f) => Raise(f)
      case Ok(cursor) => if Truthy(cursor) then Ok(Some(cursor)) else Ok(None)
  }

  /** `page.get('data')` as a list of items; a missing `data` is the empty list. A page
      that is not a dict, or whose `data` is not a list, raises. */
  function DataOf(page: Json): (r: Outcome<seq<Json>>)
    ensures page.Obj? && DataKey !in page.fields ==> r == Ok([])
    ensures page.Obj? && DataKey in page.fields && page.fields[DataKey].Arr? ==> r == Ok(page.fields[DataKey].items)
    ensures r.Ok? && r.value != [] ==> page.Obj? && DataKey in page.fields && page.fields[DataKey] == Arr(r.value)
    ensures r.Raise? <==> !page.Obj? || (DataKey in page.fields && !page.fields[DataKey].Arr?)
    ensures r.Raise? ==> r.failure == TypeFault
  {
    match page
    case Obj(fields) =>
      if DataKey !in fields then Ok([])
      else (
        match fields[DataKey]
        case Arr(items) => Ok(items)
        case _ => Raise(TypeFault))
    case _ => Raise(TypeFault)
  }

  /** The requests `requests` come first, then those of `rest`. */
  function Then<T>(requests: seq<Request>, rest: Trace<T>): Trace<T> {
    rest.(requests := requests + rest.requests)
  }

  /** The `while` loop of `graph_get_all`, from the page `last` with the items `acc`
      collected so far. Every follow-up request takes one reply from `pending`, so the
      walk ends at the latest when the replies run out. */
  function Walk(token: string, edge: string, decode: Decoder, query: Params, last: Json,
                acc: seq<Json>, pending: seq<Response>): Trace<seq<Json>>
    decreases |pending|
  {
    match NextCursor(last)
    case Raise(f) => Trace(Raise(f), query, [], pending)
    case Ok(None) => Trace(Ok(acc), query, [], pending)
    case Ok(Some(cursor)) =>
      var g := Get(token, edge, decode, query[AfterKey := cursor], pending);
      match g.outcome
      case Raise(f) => Trace(Raise(f), g.query, g.requests, g.pending)
      case Ok(page) =>
        match DataOf(page)
        case Raise(f) => Trace(Raise(f), g.query, g.requests, g.pending)
        case Ok(items) => Then(g.requests, Walk(token, edge, decode, g.query, page, acc + items, g.pending))
  }

  /** Requests put in front of requests already in front. */
  lemma ThenThen<T>(a: seq<Request>, b: seq<Request>, rest: Trace<T>)
    ensures Then(a, Then(b, rest)) == Then(a + b, rest)
  {
    assert a + (b + rest.requests) == (a + b) + rest.requests;
  }

  /** One follow-up of the walk, for a page that carries a cursor. */
  lemma WalkFollowUp(token: string, edge: string, decode: Decoder, query: Params, last: Json,
                     acc: seq<Json>, pending: seq<Response>, cursor: Json)
    requires NextCursor(last) == Ok(Some(cursor))
    ensures var g := Get(token, edge, decode, query[AfterKey := cursor], pending);
      Walk(token, edge, decode, query, last, acc, pending) ==
        match g.outcome
        case Raise(f) => Trace(Raise(f), g.query, g.requests, g.pending)
        case Ok(page) => (
          match DataOf(page)
          case Raise(f) => Trace(Raise(f), g.query, g.requests, g.pending)
          case Ok(items) => Then(g.requests, Walk(token, edge, decode, g.query, page, acc + items, g.pending)))
  {
  }

  /** The walk at a page without a usable cursor: nothing more is sent. */
  lemma WalkStops(token: string, edge: string, decode: Decoder, query: Params, last: Json,
                  acc: seq<Json>, pending: seq<Response>)
    requires !NextCursor(last).Ok? || NextCursor(last).value.None?
    ensures Walk(token, edge, decode, query, last, acc, pending) ==
      Trace(if NextCursor(last).Ok? then Ok(acc) else Raise(NextCursor(last).failure), query, [], pending)
  {
  }

  /** `graph_get_all(edge, query)`: the first page, then the walk. */
  function GetAll(token: string, edge: string, decode: Decoder, query: Params, pending: seq<Response>): Trace<seq<Json>>
  {
    var g := Get(token, edge, decode, query, pending);
    match g.outcome
    case Raise(f) => Trace(Raise(f), g.query, g.requests, g.pending)
    case Ok(page) =>
      match DataOf(page)
      case Raise(f) => Trace(Raise(f), g.query, g.requests, g.pending)
      case Ok(items) => Then(g.requests, Walk(token, edge, decode, g.query, page, items, g.pending))
  }

  /** The document a reply stands for once `graph_get` has classified it. */
  function PageOf(resp: Response, decode: Decoder): Json {
    match Classify(resp, decode)
    case Ok(page) => page
    case Raise(_) => EmptyObject
  }

  /** The items a reply contributes. */
  function ItemsOf(resp: Response, decode: Decoder): seq<Json> {
    match DataOf(PageOf(resp, decode))
    case Ok(items) => items
    case Raise(_) => []
  }

  /** Reference definition: the items of the replies, page after page, each page in its
      own order, nothing dropped and nothing merged. */
  function Collected(replies: seq<Response>, decode: Decoder): seq<Json>
    decreases |replies|
  {
    if replies == [] then [] else ItemsOf(replies[0], decode) + Collected(replies[1..], decode)
  }

  /** The page a walk looks at before its i-th follow-up request. */
  function PageBefore(last: Json, pending: seq<Response>, decode: Decoder, i: int): Json
    requires 0 <= i <= |pending|
  {
    if i == 0 then last else PageOf(pending[i - 1], decode)
  }

  /** `req` is the request made for the cursor of `prev`: the original query with the
      cursor as `after` and the current token as `access_token`. */
  predicate FollowsCursor(req: Request, edge: string, token: string, query: Params, prev: Json) {
    match NextCursor(prev)
    case Ok(Some(cursor)) => req == GraphRequest(edge, Authorize(query[AfterKey := cursor], token))
    case _ => false
  }

  /** Re-authorizing a dict that already carries a cursor and the token, after a new
      cursor is written, leaves what authorizing the original with that cursor gives. */
  lemma ReplaceCursor(query: Params, token: string, c: Json)
    ensures Authorize(Authorize(query, token)[AfterKey := c], token) == Authorize(query[AfterKey := c], token)
  {
    assert AfterKey != TokenKey;
    var lhs := Authorize(Authorize(query, token)[AfterKey := c], token);
    var rhs := Authorize(query[AfterKey := c], token);
    assert lhs.Keys == rhs.Keys;
    forall k | k in lhs ensures lhs[k] == rhs[k] {
    }
  }

  lemma FollowsCursorRebase(req: Request, edge: string, token: string, query: Params, c: Json, prev: Json)
    requires FollowsCursor(req, edge, token, Authorize(query[AfterKey := c], token), prev)
    ensures FollowsCursor(req, edge, token, query, prev)
  {
    var cursor := NextCursor(prev).value.value;
    ReplaceCursor(query[AfterKey := c], token, cursor);
    assert query[AfterKey := c][AfterKey := cursor] == query[AfterKey := cursor];
  }

  lemma FollowsCursorFromAuthorized(req: Request, edge: string, token: string, query: Params, prev: Json)
    requires FollowsCursor(req, edge, token, Authorize(query, token), prev)
    ensures FollowsCursor(req, edge, token, query, prev)
  {
    ReplaceCursor(query, token, NextCursor(prev).value.value);
  }

  /** The walk takes one reply per follow-up request and returns what it had plus the
      items of exactly the replies it took, in order. */
  lemma {:induction false} WalkCollectsData(token: string, edge: string, decode: Decoder, query: Params,
                                            last: Json, acc: seq<Json>, pending: seq<Response>)
    ensures var t := Walk(token, edge, decode, query, last, acc, pending);
      && |t.requests| <= |pending| + 1
      && (t.outcome.Ok? ==>
            && |t.requests| <= |pending|
            && (forall i :: 0 <= i < |t.requests| ==> UsablePage(pending[i], decode))
            && t.pending == pending[|t.requests|..]
            && t.outcome.value == acc + Collected(pending[..|t.requests|], decode))
    decreases |pending|
  {
    match NextCursor(last)
    case Raise(_) =>
      WalkStops(token, edge, decode, query, last, acc, pending);
    case Ok(None) =>
      WalkStops(token, edge, decode, query, last, acc, pending);
      assert pending[..0] == [];
    case Ok(Some(cursor)) =>
      var g := Get(token, edge, decode, query[AfterKey := cursor], pending);
      WalkFollowUp(token, edge, decode, query, last, acc, pending, cursor);
      match g.outcome
      case Raise(_) =>
      case Ok(page) =>
        match DataOf(page)
        case Raise(_) =>
        case Ok(items) =>
          var rest := Walk(token, edge, decode, g.query, page, acc + items, g.pending);
          WalkCollectsData(token, edge, decode, g.query, page, acc + items, g.pending);
          ItemsOfPage(pending[0], decode, page, items);
          assert UsablePage(pending[0], decode);
          CollectOneMore(Walk(token, edge, decode, query, last, acc, pending), rest, g.requests, acc, items, pending, decode);
  }

  /** One page's items put in front of what the rest of the walk collected. */
  lemma CollectOneMore(t: Trace<seq<Json>>, rest: Trace<seq<Json>>, first: seq<Request>, acc: seq<Json>,
                       items: seq<Json>, pending: seq<Response>, decode: Decoder)
    requires |first| == 1 && pending != [] && t == Then(first, rest)
    requires ItemsOf(pending[0], decode) == items && UsablePage(pending[0], decode)
    requires |rest.requests| <= |pending| - 1 + 1
    requires rest.outcome.Ok? ==>
      && |rest.requests| <= |pending| - 1
      && (forall i :: 0 <= i < |rest.requests| ==> UsablePage(pending[1..][i], decode))
      && rest.pending == pending[1..][|rest.requests|..]
      && rest.outcome.value == (acc + items) + Collected(pending[1..][..|rest.requests|], decode)
    ensures |t.requests| <= |pending| + 1
    ensures t.outcome.Ok? ==>
      && |t.requests| <= |pending|
      && (forall i :: 0 <= i < |t.requests| ==> UsablePage(pending[i], decode))
      && t.pending == pending[|t.requests|..]
      && t.outcome.value == acc + Collected(pending[..|t.requests|], decode)
  {
    if rest.outcome.Ok? {
      var n := |rest.requests|;
      forall i | 1 <= i < |t.requests| ensures UsablePage(pending[i], decode) {
        assert pending[1..][i - 1] == pending[i];
      }
      TakeOneMore(pending, n, decode, items);
      assert (acc + items) + Collected(pending[1..][..n], decode) ==
             acc + (items + Collected(pending[1..][..n], decode));
    }
  }

  lemma ItemsOfPage(resp: Response, decode: Decoder, page: Json, items: seq<Json>)
    requires Classify(resp, decode) == Ok(page) && DataOf(page) == Ok(items)
    ensures ItemsOf(resp, decode) == items
  {
  }

  /** Taking one reply and then `n` more collects that reply's items, then the others'. */
  lemma TakeOneMore(pending: seq<Response>, n: nat, decode: Decoder, items: seq<Json>)
    requires n < |pending|
    requires ItemsOf(pending[0], decode) == items
    ensures Collected(pending[..n + 1], decode) == items + Collected(pending[1..][..n], decode)
    ensures pending[1..][n..] == pending[n + 1..]
  {
    var taken := pending[..n + 1];
    assert taken[0] == pending[0] && taken[1..] == pending[1..][..n];
  }

  /** Every follow-up request carries the cursor of the page right before it, and a walk
      that returns normally has stopped at a page without a cursor. */
  lemma {:induction false} WalkFollowsCursors(token: string, edge: string, decode: Decoder, query: Params,
                                              last: Json, acc: seq<Json>, pending: seq<Response>)
    ensures var t := Walk(token, edge, decode, query, last, acc, pending);
      && |t.requests| <= |pending| + 1
      && (forall i :: 0 <= i < |t.requests| ==>
            FollowsCursor(t.requests[i], edge, token, query, PageBefore(last, pending, decode, i)))
      && (t.outcome.Ok? ==>
            |t.requests| <= |pending| && NextCursor(PageBefore(last, pending, decode, |t.requests|)) == Ok(None))
    decreases |pending|
  {
    match NextCursor(last)
    case Raise(_) =>
      WalkStops(token, edge, decode, query, last, acc, pending);
    case Ok(None) =>
      WalkStops(token, edge, decode, query, last, acc, pending);
    case Ok(Some(cursor)) =>
      var g := Get(token, edge, decode, query[AfterKey := cursor], pending);
      WalkFollowUp(token, edge, decode, query, last, acc, pending, cursor);
      match g.outcome
      case Raise(_) =>
      case Ok(page) =>
        match DataOf(page)
        case Raise(_) =>
          case Ok(items) =>
          var rest := Walk(token, edge, decode, g.query, page, acc + items, g.pending);
          WalkFollowsCursors(token, edge, decode, g.query, page, acc + items, g.pending);
          FollowOneMore(Walk(token, edge, decode, query, last, acc, pending), rest, g.requests,
                        edge, token, query, cursor, last, page, pending, decode);
  }

  /** The first follow-up put in front of the rest of a walk. */
  lemma FollowOneMore(t: Trace<seq<Json>>, rest: Trace<seq<Json>>, first: seq<Request>, edge: string, token: string,
                      query: Params, cursor: Json, last: Json, page: Json, pending: seq<Response>, decode: Decoder)
    requires t == Then(first, rest)
    requires first == [GraphRequest(edge, Authorize(query[AfterKey := cursor], token))]
    requires pending != [] && Classify(pending[0], decode) == Ok(page)
    requires NextCursor(last) == Ok(Some(cursor))
    requires |rest.requests| <= |pending| - 1 + 1
    requires forall i :: 0 <= i < |rest.requests| ==>
      FollowsCursor(rest.requests[i], edge, token, Authorize(query[AfterKey := cursor], token), PageBefore(page, pending[1..], decode, i))
    requires rest.outcome.Ok? ==>
      |rest.requests| <= |pending| - 1 && NextCursor(PageBefore(page, pending[1..], decode, |rest.requests|)) == Ok(None)
    ensures |t.requests| <= |pending| + 1
    ensures forall i :: 0 <= i < |t.requests| ==>
      FollowsCursor(t.requests[i], edge, token, query, PageBefore(last, pending, decode, i))
    ensures t.outcome.Ok? ==>
      |t.requests| <= |pending| && NextCursor(PageBefore(last, pending, decode, |t.requests|)) == Ok(None)
  {
    CursorsShift(edge, token, query, cursor, last, page, pending, decode, rest.requests, t.requests);
    if rest.outcome.Ok? {
      assert PageBefore(page, pending[1..], decode, |rest.requests|) == PageBefore(last, pending, decode, |rest.requests| + 1);
    }
  }

  /** The requests of the rest of a walk, which follow cursors relative to the query
      after the first follow-up, follow them relative to the original query once the
      first follow-up is put in front. */
  lemma CursorsShift(edge: string, token: string, query: Params, cursor: Json, last: Json, page: Json,
                     pending: seq<Response>, decode: Decoder, rest: seq<Request>, all: seq<Request>)
    requires all == [GraphRequest(edge, Authorize(query[AfterKey := cursor], token))] + rest
    requires pending != [] && Classify(pending[0], decode) == Ok(page)
    requires NextCursor(last) == Ok(Some(cursor))
    requires |rest| <= |pending|
    requires forall i :: 0 <= i < |rest| ==>
      FollowsCursor(rest[i], edge, token, Authorize(query[AfterKey := cursor], token), PageBefore(page, pending[1..], decode, i))
    ensures |all| <= |pending| + 1
    ensures forall i :: 0 <= i < |all| ==>
      FollowsCursor(all[i], edge, token, query, PageBefore(last, pending, decode, i))
  {
    forall i | 0 <= i < |all|
      ensures FollowsCursor(all[i], edge, token, query, PageBefore(last, pending, decode, i))
    {
      if i > 0 {
        assert all[i] == rest[i - 1];
        assert PageBefore(page, pending[1..], decode, i - 1) == PageBefore(last, pending, decode, i);
        FollowsCursorRebase(all[i], edge, token, query, cursor, PageBefore(last, pending, decode, i));
      }
    }
  }

  /** The first page of `graph_get_all`, then the walk. */
  lemma GetAllStart(token: string, edge: string, decode: Decoder, query: Params, pending: seq<Response>)
    ensures var g := Get(token, edge, decode, query, pending);
      GetAll(token, edge, decode, query, pending) ==
        match g.outcome
        case Raise(f) => Trace(Raise(f), g.query, g.requests, g.pending)
        case Ok(page) => (
          match DataOf(page)
          case Raise(f) => Trace(Raise(f), g.query, g.requests, g.pending)
          case Ok(items) => Then(g.requests, Walk(token, edge, decode, g.query, page, items, g.pending)))
  {
  }

  /** `graph_get_all` returns the items of exactly the pages it fetched, one reply per
      request, in arrival order. */
  lemma GetAllCollectsData(token: string, edge: string, decode: Decoder, query: Params, pending: seq<Response>)
    ensures var t := GetAll(token, edge, decode, query, pending);
      && 1 <= |t.requests| <= |pending| + 1
      && (t.outcome.Ok? ==>
            && |t.requests| <= |pending|
            && (forall i :: 0 <= i < |t.requests| ==> UsablePage(pending[i], decode))
            && t.pending == pending[|t.requests|..]
            && t.outcome.value == Collected(pending[..|t.requests|], decode))
  {
    var g := Get(token, edge, decode, query, pending);
    match g.outcome
    case Raise(_) =>
    case Ok(page) =>
      match DataOf(page)
      case Raise(_) =>
      case Ok(items) =>
        WalkCollectsData(token, edge, decode, g.query, page, items, g.pending);
        var rest := Walk(token, edge, decode, g.query, page, items, g.pending);
        var n := |rest.requests|;
        if rest.outcome.Ok? {
          var taken := pending[..n + 1];
          assert taken[0] == pending[0] && taken[1..] == g.pending[..n];
          assert ItemsOf(pending[0], decode) == items;
          assert Collected(taken, decode) == items + Collected(g.pending[..n], decode);
          forall i | 0 <= i < n + 1 ensures UsablePage(pending[i], decode) {
            if i > 0 {
              assert g.pending[i - 1] == pending[i];
            }
          }
        }
  }

  /** `graph_get_all` first sends the caller's query with the token, then one request per
      non-empty cursor, each carrying the cursor of the reply just before it; it returns
      normally only after a page without a cursor. */
  lemma GetAllFollowsCursors(token: string, edge: string, decode: Decoder, query: Params, pending: seq<Response>)
    ensures var t := GetAll(token, edge, decode, query, pending);
      && 1 <= |t.requests| <= |pending| + 1
      && t.requests[0] == GraphRequest(edge, Authorize(query, token))
      && (forall i :: 1 <= i < |t.requests| ==>
            FollowsCursor(t.requests[i], edge, token, query, PageOf(pending[i - 1], decode)))
      && (t.outcome.Ok? ==>
            |t.requests| <= |pending| && NextCursor(PageOf(pending[|t.requests| - 1], decode)) == Ok(None))
  {
    var g := Get(token, edge, decode, query, pending);
    GetAllStart(token, edge, decode, query, pending);
    match g.outcome
    case Raise(_) =>
    case Ok(page) =>
      match DataOf(page)
      case Raise(_) =>
      case Ok(items) =>
        WalkFollowsCursors(token, edge, decode, g.query, page, items, g.pending);
        var rest := Walk(token, edge, decode, g.query, page, items, g.pending);
        FollowFromStart(GetAll(token, edge, decode, query, pending), rest, g.requests, edge, token, query, page, pending, decode);
  }

  /** The first request of `graph_get_all` put in front of its walk. */
  lemma FollowFromStart(t: Trace<seq<Json>>, rest: Trace<seq<Json>>, first: seq<Request>, edge: string, token: string,
                        query: Params, page: Json, pending: seq<Response>, decode: Decoder)
    requires t == Then(first, rest)
    requires first == [GraphRequest(edge, Authorize(query, token))]
    requires pending != [] && Classify(pending[0], decode) == Ok(page)
    requires |rest.requests| <= |pending| - 1 + 1
    requires forall i :: 0 <= i < |rest.requests| ==>
      FollowsCursor(rest.requests[i], edge, token, Authorize(query, token), PageBefore(page, pending[1..], decode, i))
    requires rest.outcome.Ok? ==>
      |rest.requests| <= |pending| - 1 && NextCursor(PageBefore(page, pending[1..], decode, |rest.requests|)) == Ok(None)
    ensures 1 <= |t.requests| <= |pending| + 1
    ensures t.requests[0] == GraphRequest(edge, Authorize(query, token))
    ensures forall i :: 1 <= i < |t.requests| ==>
      FollowsCursor(t.requests[i], edge, token, query, PageOf(pending[i - 1], decode))
    ensures t.outcome.Ok? ==>
      |t.requests| <= |pending| && NextCursor(PageOf(pending[|t.requests| - 1], decode)) == Ok(None)
  {
    assert PageOf(pending[0], decode) == page;
    forall i | 1 <= i < |t.requests|
      ensures FollowsCursor(t.requests[i], edge, token, query, PageOf(pending[i - 1], decode))
    {
      assert t.requests[i] == rest.requests[i - 1];
      assert PageBefore(page, pending[1..], decode, i - 1) == PageOf(pending[i - 1], decode);
      FollowsCursorFromAuthorized(t.requests[i], edge, token, query, PageOf(pending[i - 1], decode));
    }
    if t.outcome.Ok? {
      assert PageBefore(page, pending[1..], decode, |rest.requests|) == PageOf(pending[|t.requests| - 1], decode);
    }
  }

  /** The dict a walk leaves behind is the one its last request carried. */
  lemma {:induction false} WalkLeavesLastQuery(token: string, edge: string, decode: Decoder, query: Params,
                                               last: Json, acc: seq<Json>, pending: seq<Response>)
    ensures var t := Walk(token, edge, decode, query, last, acc, pending);
      if t.requests == [] then t.query == query else t.requests[|t.requests| - 1] == GraphRequest(edge, t.query)
    decreases |pending|
  {
    match NextCursor(last)
    case Raise(_) =>
      WalkStops(token, edge, decode, query, last, acc, pending);
    case Ok(None) =>
      WalkStops(token, edge, decode, query, last, acc, pending);
    case Ok(Some(cursor)) =>
      var g := Get(token, edge, decode, query[AfterKey := cursor], pending);
      WalkFollowUp(token, edge, decode, query, last, acc, pending, cursor);
      match g.outcome
      case Raise(_) =>
      case Ok(page) =>
        match DataOf(page)
        case Raise(_) =>
        case Ok(items) =>
          var rest := Walk(token, edge, decode, g.query, page, acc + items, g.pending);
          WalkLeavesLastQuery(token, edge, decode, g.query, page, acc + items, g.pending);
          LastQueryOneMore(Walk(token, edge, decode, query, last, acc, pending), rest, g.requests, edge);
  }

  /** A request put in front of the rest of a walk that ends at the query it started
      from, or at its own last request. */
  lemma LastQueryOneMore<T>(t: Trace<T>, rest: Trace<T>, first: seq<Request>, edge: string)
    requires t == Then(first, rest) && |first| == 1
    requires rest.requests == [] ==> first[0] == GraphRequest(edge, rest.query)
    requires rest.requests != [] ==> rest.requests[|rest.requests| - 1] == GraphRequest(edge, rest.query)
    ensures t.requests != [] && t.requests[|t.requests| - 1] == GraphRequest(edge, t.query)
  {
  }

  /** `graph_get_all` leaves in the caller's dict exactly what its last request carried:
      the token and, after a follow-up, the last cursor followed. */
  lemma GetAllLeavesLastQuery(token: string, edge: string, decode: Decoder, query: Params, pending: seq<Response>)
    ensures var t := GetAll(token, edge, decode, query, pending);
      t.requests != [] && t.requests[|t.requests| - 1] == GraphRequest(edge, t.query)
  {
    var g := Get(token, edge, decode, query, pending);
    match g.outcome
    case Raise(_) =>
    case Ok(page) =>
      match DataOf(page)
      case Raise(_) =>
      case Ok(items) =>
        WalkLeavesLastQuery(token, edge, decode, g.query, page, items, g.pending);
        var rest := Walk(token, edge, decode, g.query, page, items, g.pending);
        LastQueryOneMore(GetAll(token, edge, decode, query, pending), rest, g.requests, edge);
  }

  /** A reply `graph_get` accepts, whose page is a dict whose `data` is a list or missing. */
  predicate UsablePage(resp: Response, decode: Decoder) {
    Classify(resp, decode).Ok? && DataOf(PageOf(resp, decode)).Ok?
  }

  /** A page with a non-empty `paging.cursors.after` cursor. */
  predicate HasCursor(page: Json) {
    NextCursor(page).Ok? && NextCursor(page).value.Some?
  }

  /** The converse of `WalkCollectsData`: when the next `n` replies are usable pages, each
      page before them carries a cursor and the n-th carries none, the walk sends exactly
      `n` requests, takes exactly those `n` replies and returns their items after `acc`. */
  lemma {:induction false} WalkReturns(token: string, edge: string, decode: Decoder, query: Params,
                                       last: Json, acc: seq<Json>, pending: seq<Response>, n: nat)
    requires n <= |pending|
    requires forall i :: 0 <= i < n ==> UsablePage(pending[i], decode)
    requires forall i :: 0 <= i < n ==> HasCursor(PageBefore(last, pending, decode, i))
    requires NextCursor(PageBefore(last, pending, decode, n)) == Ok(None)
    ensures var t := Walk(token, edge, decode, query, last, acc, pending);
      && t.outcome == Ok(acc + Collected(pending[..n], decode))
      && |t.requests| == n
      && t.pending == pending[n..]
    decreases n
  {
    if n == 0 {
      WalkStops(token, edge, decode, query, last, acc, pending);
      assert pending[..0] == [] && acc + [] == acc;
    } else {
      assert HasCursor(PageBefore(last, pending, decode, 0));
      var cursor := NextCursor(last).value.value;
      var g := Get(token, edge, decode, query[AfterKey := cursor], pending);
      WalkFollowUp(token, edge, decode, query, last, acc, pending, cursor);
      assert UsablePage(pending[0], decode);
      var page := PageOf(pending[0], decode);
      var items := DataOf(page).value;
      assert g.outcome == Ok(page) && g.pending == pending[1..];
      ShiftedPages(last, pending, decode, n);
      WalkReturns(token, edge, decode, g.query, page, acc + items, pending[1..], n - 1);
      ReturnOneMore(Walk(token, edge, decode, query, last, acc, pending),
                    Walk(token, edge, decode, g.query, page, acc + items, pending[1..]),
                    g.requests, acc, items, pending, decode, n);
    }
  }

  /** The conditions of `WalkReturns` for the replies after the first, seen from the
      first reply's page. */
  lemma ShiftedPages(last: Json, pending: seq<Response>, decode: Decoder, n: nat)
    requires 1 <= n <= |pending|
    requires forall i :: 0 <= i < n ==> UsablePage(pending[i], decode)
    requires forall i :: 0 <= i < n ==> HasCursor(PageBefore(last, pending, decode, i))
    requires NextCursor(PageBefore(last, pending, decode, n)) == Ok(None)
    ensures forall i :: 0 <= i < n - 1 ==> UsablePage(pending[1..][i], decode)
    ensures forall i :: 0 <= i < n - 1 ==> HasCursor(PageBefore(PageOf(pending[0], decode), pending[1..], decode, i))
    ensures NextCursor(PageBefore(PageOf(pending[0], decode), pending[1..], decode, n - 1)) == Ok(None)
  {
    forall i | 0 <= i <= n - 1
      ensures PageBefore(PageOf(pending[0], decode), pending[1..], decode, i) == PageBefore(last, pending, decode, i + 1)
    {
    }
    forall i | 0 <= i < n - 1
      ensures UsablePage(pending[1..][i], decode)
    {
      assert pending[1..][i] == pending[i + 1];
    }
  }

  /** One usable page put in front of a walk that returned after `n - 1` more. */
  lemma ReturnOneMore(t: Trace<seq<Json>>, rest: Trace<seq<Json>>, first: seq<Request>, acc: seq<Json>,
                      items: seq<Json>, pending: seq<Response>, decode: Decoder, n: nat)
    requires 1 <= n <= |pending| && |first| == 1 && t == Then(first, rest)
    requires ItemsOf(pending[0], decode) == items
    requires rest.outcome == Ok((acc + items) + Collected(pending[1..][..n - 1], decode))
    requires |rest.requests| == n - 1 && rest.pending == pending[1..][n - 1..]
    ensures t.outcome == Ok(acc + Collected(pending[..n], decode))
    ensures |t.requests| == n && t.pending == pending[n..]
  {
    TakeOneMore(pending, n - 1, decode, items);
    assert (acc + items) + Collected(pending[1..][..n - 1], decode) ==
           acc + (items + Collected(pending[1..][..n - 1], decode));
  }

  /** The converse of `GetAllCollectsData`: when the first `n` replies are usable pages,
      all but the last carry a cursor and the last carries none, `graph_get_all` sends
      exactly `n` requests and returns the items of those `n` pages, in order. */
  lemma GetAllReturns(token: string, edge: string, decode: Decoder, query: Params, pending: seq<Response>, n: nat)
    requires 1 <= n <= |pending|
    requires forall i :: 0 <= i < n ==> UsablePage(pending[i], decode)
    requires forall i :: 0 <= i < n - 1 ==> HasCursor(PageOf(pending[i], decode))
    requires NextCursor(PageOf(pending[n - 1], decode)) == Ok(None)
    ensures var t := GetAll(token, edge, decode, query, pending);
      && t.outcome == Ok(Collected(pending[..n], decode))
      && |t.requests| == n
      && t.pending == pending[n..]
  {
    assert UsablePage(pending[0], decode);
    var page := PageOf(pending[0], decode);
    var items := ItemsOf(pending[0], decode);
    var q := Authorize(query, token);
    var rest := Walk(token, edge, decode, q, page, items, pending[1..]);
    assert GetAll(token, edge, decode, query, pending) == Then([GraphRequest(edge, q)], rest) by {
      GetAllFirstPage(token, edge, decode, query, pending);
    }
    assert rest.outcome == Ok(([] + items) + Collected(pending[1..][..n - 1], decode))
        && |rest.requests| == n - 1 && rest.pending == pending[1..][n - 1..] by {
      StartPages(pending, decode, n);
      WalkReturns(token, edge, decode, q, page, items, pending[1..], n - 1);
      assert [] + items == items;
    }
    ReturnOneMore(GetAll(token, edge, decode, query, pending), rest, [GraphRequest(edge, q)], [], items, pending, decode, n);
    assert [] + Collected(pending[..n], decode) == Collected(pending[..n], decode);
  }

  /** `graph_get_all` on a usable first reply: the first request, then the walk from
      that reply's page and items. */
  lemma GetAllFirstPage(token: string, edge: string, decode: Decoder, query: Params, pending: seq<Response>)
    requires pending != [] && UsablePage(pending[0], decode)
    ensures GetAll(token, edge, decode, query, pending) ==
      Then([GraphRequest(edge, Authorize(query, token))],
           Walk(token, edge, decode, Authorize(query, token), PageOf(pending[0], decode), ItemsOf(pending[0], decode), pending[1..]))
  {
    GetAllStart(token, edge, decode, query, pending);
  }

  /** The conditions of `WalkReturns` for the walk after the first page. */
  lemma StartPages(pending: seq<Response>, decode: Decoder, n: nat)
    requires 1 <= n <= |pending|
    requires forall i :: 0 <= i < n ==> UsablePage(pending[i], decode)
    requires forall i :: 0 <= i < n - 1 ==> HasCursor(PageOf(pending[i], decode))
    requires NextCursor(PageOf(pending[n - 1], decode)) == Ok(None)
    ensures forall i :: 0 <= i < n - 1 ==> UsablePage(pending[1..][i], decode)
    ensures forall i :: 0 <= i < n - 1 ==> HasCursor(PageBefore(PageOf(pending[0], decode), pending[1..], decode, i))
    ensures NextCursor(PageBefore(PageOf(pending[0], decode), pending[1..], decode, n - 1)) == Ok(None)
  {
    forall i | 0 <= i <= n - 1
      ensures PageBefore(PageOf(pending[0], decode), pending[1..], decode, i) == PageOf(pending[i], decode)
    {
    }
    forall i | 0 <= i < n - 1
      ensures UsablePage(pending[1..][i], decode)
    {
      assert pending[1..][i] == pending[i + 1];
    }
  }

  /** A reply on whose arrival `graph_get_all` raises `f`: `graph_get` raises `f` on it
      (a transport failure, an error envelope, a non-200 status), or the page's `data`
      read raises `f`, or the page's cursor lookup does. */
  predicate RaisesOn(resp: Response, decode: Decoder, f: Failure) {
    match Classify(resp, decode)
    case Raise(g) => g == f
    case Ok(page) =>
      match DataOf(page)
      case Raise(g) => g == f
      case Ok(_) => NextCursor(page) == Raise(f)
  }

  /** A failure propagates out of the walk unchanged: when the first `n - 1` replies are
      usable pages, each page before the `n`-th request carries a cursor and the `n`-th
      reply raises `f` (a script used up counts as a transport failure), the walk raises
      `f` after exactly `n` requests and nothing it collected is returned. */
  lemma {:induction false} WalkRaises(token: string, edge: string, decode: Decoder, query: Params,
                                      last: Json, acc: seq<Json>, pending: seq<Response>, n: nat, f: Failure)
    requires 1 <= n <= |pending| + 1
    requires forall i :: 0 <= i < n - 1 ==> UsablePage(pending[i], decode)
    requires forall i :: 0 <= i < n ==> HasCursor(PageBefore(last, pending, decode, i))
    requires RaisesOn(NextResponse(pending[n - 1..]), decode, f)
    ensures var t := Walk(token, edge, decode, query, last, acc, pending);
      && t.outcome == Raise(f)
      && |t.requests| == n
      && t.pending == Remaining(pending[n - 1..])
    decreases n
  {
    assert HasCursor(PageBefore(last, pending, decode, 0));
    var cursor := NextCursor(last).value.value;
    var g := Get(token, edge, decode, query[AfterKey := cursor], pending);
    WalkFollowUp(token, edge, decode, query, last, acc, pending, cursor);
    if n == 1 {
      assert pending[0..] == pending;
      match g.outcome
      case Raise(_) =>
      case Ok(page) =>
        match DataOf(page)
        case Raise(_) =>
        case Ok(items) =>
          WalkStops(token, edge, decode, g.query, page, acc + items, g.pending);
    } else {
      assert UsablePage(pending[0], decode);
      var page := PageOf(pending[0], decode);
      var items := DataOf(page).value;
      assert g.outcome == Ok(page) && g.pending == pending[1..];
      ShiftedRaisePages(last, pending, decode, n, f);
      WalkRaises(token, edge, decode, g.query, page, acc + items, pending[1..], n - 1, f);
    }
  }

  /** The conditions of `WalkRaises` for the replies after the first, seen from the
      first reply's page. */
  lemma ShiftedRaisePages(last: Json, pending: seq<Response>, decode: Decoder, n: nat, f: Failure)
    requires 2 <= n <= |pending| + 1
    requires forall i :: 0 <= i < n - 1 ==> UsablePage(pending[i], decode)
    requires forall i :: 0 <= i < n ==> HasCursor(PageBefore(last, pending, decode, i))
    requires RaisesOn(NextResponse(pending[n - 1..]), decode, f)
    ensures forall i :: 0 <= i < n - 2 ==> UsablePage(pending[1..][i], decode)
    ensures forall i :: 0 <= i < n - 1 ==> HasCursor(PageBefore(PageOf(pending[0], decode), pending[1..], decode, i))
    ensures RaisesOn(NextResponse(pending[1..][n - 2..]), decode, f)
  {
    forall i | 0 <= i < n - 1
      ensures PageBefore(PageOf(pending[0], decode), pending[1..], decode, i) == PageBefore(last, pending, decode, i + 1)
    {
    }
    forall i | 0 <= i < n - 2
      ensures UsablePage(pending[1..][i], decode)
    {
      assert pending[1..][i] == pending[i + 1];
    }
    assert pending[1..][n - 2..] == pending[n - 1..];
  }

  /** A failure of any `graph_get`, or of reading any page, propagates out of
      `graph_get_all` unchanged: when the first `n - 1` replies are usable pages with a
      cursor and the `n`-th reply raises `f`, the call raises `f` after exactly `n`
      requests, and no partial list is returned. */
  lemma GetAllRaises(token: string, edge: string, decode: Decoder, query: Params, pending: seq<Response>, n: nat, f: Failure)
    requires 1 <= n <= |pending| + 1
    requires forall i :: 0 <= i < n - 1 ==> UsablePage(pending[i], decode)
    requires forall i :: 0 <= i < n - 1 ==> HasCursor(PageOf(pending[i], decode))
    requires RaisesOn(NextResponse(pending[n - 1..]), decode, f)
    ensures var t := GetAll(token, edge, decode, query, pending);
      && t.outcome == Raise(f)
      && |t.requests| == n
      && t.pending == Remaining(pending[n - 1..])
  {
    var q := Authorize(query, token);
    if n == 1 {
      assert pending[0..] == pending;
      GetAllStart(token, edge, decode, query, pending);
      var g := Get(token, edge, decode, query, pending);
      match g.outcome
      case Raise(_) =>
      case Ok(page) =>
        match DataOf(page)
        case Raise(_) =>
        case Ok(items) =>
          WalkStops(token, edge, decode, g.query, page, items, g.pending);
    } else {
      assert UsablePage(pending[0], decode);
      var page := PageOf(pending[0], decode);
      var items := ItemsOf(pending[0], decode);
      GetAllFirstPage(token, edge, decode, query, pending);
      StartRaisePages(pending, decode, n, f);
      WalkRaises(token, edge, decode, q, page, items, pending[1..], n - 1, f);
    }
  }

  /** The conditions of `WalkRaises` for the walk after the first page. */
  lemma StartRaisePages(pending: seq<Response>, decode: Decoder, n: nat, f: Failure)
    requires 2 <= n <= |pending| + 1
    requires forall i :: 0 <= i < n - 1 ==> UsablePage(pending[i], decode)
    requires forall i :: 0 <= i < n - 1 ==> HasCursor(PageOf(pending[i], decode))
    requires RaisesOn(NextResponse(pending[n - 1..]), decode, f)
    ensures forall i :: 0 <= i < n - 2 ==> UsablePage(pending[1..][i], decode)
    ensures forall i :: 0 <= i < n - 1 ==> HasCursor(PageBefore(PageOf(pending[0], decode), pending[1..], decode, i))
    ensures RaisesOn(NextResponse(pending[1..][n - 2..]), decode, f)
  {
    forall i | 0 <= i < n - 1
      ensures PageBefore(PageOf(pending[0], decode), pending[1..], decode, i) == PageOf(pending[i], decode)
    {
    }
    forall i | 0 <= i < n - 2
      ensures UsablePage(pending[1..][i], decode)
    {
      assert pending[1..][i] == pending[i + 1];
    }
    assert pending[1..][n - 2..] == pending[n - 1..];
  }

  /** A first reply without `data` and without a cursor gives the empty list after one
      request. */
  lemma NoPages(token: string, edge: string, decode: Decoder, query: Params, body: Bytes, fields: map<string, Json>)
    requires body != [] && decode(body) == Some(Obj(fields))
    requires DataKey !in fields && "paging" !in fields
    ensures GetAll(token, edge, decode, query, [Response(200, body)]).outcome == Ok([])
    ensures |GetAll(token, edge, decode, query, [Response(200, body)]).requests| == 1
  {
    var page := Obj(fields);
    assert Truthy(page) ==> Lookup(page, ["paging", "cursors", AfterKey]) == Ok(Null);
  }

  // ---------------------------------------------------------------------------------
  // `graph_get_all` as written: `data` defaults to `{}` and pages are joined with
  // Python's `+`.

  /** Python's `a + b` on decoded values: lists and strings concatenate, numbers add
      (a bool counting as 0 or 1); any other pair raises TypeError. */
  function PyAdd(a: Json, b: Json): (r: Outcome<Json>)
    ensures a.Arr? && b.Arr? ==> r == Ok(Arr(a.items + b.items))
    ensures a.Str? && b.Str? ==> r == Ok(Str(a.s + b.s))
    ensures a.Obj? || b.Obj? || a.Null? || b.Null? ==> r == Raise(TypeFault)
    ensures r.Raise? ==> r.failure == TypeFault
  {
    match (a, b)
    case (Arr(x), Arr(y)) => Ok(Arr(x + y))
    case (Str(x), Str(y)) => Ok(Str(x + y))
    case (Num(x), Num(y)) => Ok(Num(x + y))
    case (Num(x), Bool(y)) => Ok(Num(x + if y then 1 else 0))
    case (Bool(x), Num(y)) => Ok(Num((if x then 1 else 0) + y))
    case (Bool(x), Bool(y)) => Ok(Num((if x then 1 else 0) + (if y then 1 else 0)))
    case _ => Raise(TypeFault)
  }

  /** `page.get('data', {})` as written: the empty dict when `data` is missing. */
  function DataAsWritten(page: Json): (r: Outcome<Json>)
    ensures page.Obj? && DataKey !in page.fields ==> r == Ok(EmptyObject)
    ensures page.Obj? && DataKey in page.fields ==> r == Ok(page.fields[DataKey])
    ensures !page.Obj? ==> r == Raise(TypeFault)
  {
    match page
    case Obj(fields) => if DataKey in fields then Ok(fields[DataKey]) else Ok(EmptyObject)
    case _ => Raise(TypeFault)
  }

  /** The loop of `graph_get_all` as written. */
  function WalkAsWritten(token: string, edge: string, decode: Decoder, query: Params, last: Json,
                         acc: Json, pending: seq<Response>): Trace<Json>
    decreases |pending|
  {
    match NextCursor(last)
    case Raise(f) => Trace(Raise(f), query, [], pending)
    case Ok(None) => Trace(Ok(acc), query, [], pending)
    case Ok(Some(cursor)) =>
      var g := Get(token, edge, decode, query[AfterKey := cursor], pending);
      match g.outcome
      case Raise(f) => Trace(Raise(f), g.query, g.requests, g.pending)
      case Ok(page) =>
        match DataAsWritten(page)
        case Raise(f) => Trace(Raise(f), g.query, g.requests, g.pending)
        case Ok(data) =>
          match PyAdd(acc, data)
          case Raise(f) => Trace(Raise(f), g.query, g.requests, g.pending)
          case Ok(sum) => Then(g.requests, WalkAsWritten(token, edge, decode, g.query, page, sum, g.pending))
  }

  /** `graph_get_all(edge, query)` as written. */
  function GetAllAsWritten(token: string, edge: string, decode: Decoder, query: Params, pending: seq<Response>): Trace<Json>
  {
    var g := Get(token, edge, decode, query, pending);
    match g.outcome
    case Raise(f) => Trace(Raise(f), g.query, g.requests, g.pending)
    case Ok(page) =>
      match DataAsWritten(page)
      case Raise(f) => Trace(Raise(f), g.query, g.requests, g.pending)
      case Ok(data) => Then(g.requests, WalkAsWritten(token, edge, decode, g.query, page, data, g.pending))
  }

  /** As written, a follow-up page that comes back empty (an empty body reads as `{}`)
      ends the pagination with TypeError, `list + dict`, and the items already collected
      are lost; with a missing `data` read as the empty list, they are returned. */
  lemma EmptyFollowUpPageAsWritten(token: string, edge: string, decode: Decoder, query: Params,
                                   body: Bytes, item: Json, cursor: string)
    requires body != [] && cursor != ""
    requires decode(body) == Some(Obj(map[DataKey := Arr([item]),
                                          "paging" := Obj(map["cursors" := Obj(map[AfterKey := Str(cursor)])])]))
    ensures GetAllAsWritten(token, edge, decode, query, [Response(200, body), Response(200, [])]).outcome == Raise(TypeFault)
    ensures GetAll(token, edge, decode, query, [Response(200, body), Response(200, [])]).outcome == Ok([item])
  {
    var page := decode(body).value;
    PageWithCursor(page, item, cursor);
    assert NextCursor(EmptyObject) == Ok(None);
    var second := Walk(token, edge, decode, Authorize(query, token), page, [item], [Response(200, [])]);
    assert second.outcome == Ok([item] + []);
    assert [item] + [] == [item];
  }

  /** A page with one item and a cursor. */
  lemma PageWithCursor(page: Json, item: Json, cursor: string)
    requires cursor != ""
    requires page == Obj(map[DataKey := Arr([item]), "paging" := Obj(map["cursors" := Obj(map[AfterKey := Str(cursor)])])])
    ensures NextCursor(page) == Ok(Some(Str(cursor)))
    ensures DataOf(page) == Ok([item]) && DataAsWritten(page) == Ok(Arr([item]))
  {
    var path := ["paging", "cursors", AfterKey];
    var cursors := Obj(map[AfterKey := Str(cursor)]);
    assert path[1..] == ["cursors", AfterKey] && path[1..][1..] == [AfterKey] && [AfterKey][1..] == [];
    assert Lookup(cursors, [AfterKey]) == Ok(Str(cursor));
    assert Lookup(Obj(map["cursors" := cursors]), ["cursors", AfterKey]) == Ok(Str(cursor));
    assert Lookup(page, path) == Ok(Str(cursor));
  }

  /** As written, a first page without `data` and without a cursor makes the call return
      the empty dict rather than a list. */
  lemma NoDataFirstPageAsWritten(token: string, edge: string, decode: Decoder, query: Params)
    ensures GetAllAsWritten(token, edge, decode, query, [Response(200, [])]).outcome == Ok(EmptyObject)
    ensures GetAll(token, edge, decode, query, [Response(200, [])]).outcome == Ok([])
  {
    assert NextCursor(EmptyObject) == Ok(None);
  }
}
