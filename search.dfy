/** `searchItems` of search-api/src/controllers/search.js: the lexical search
    endpoint. It checks the `q` query parameter, asks the store for a text
    search with a fixed projection sorted by text score, and wraps the
    store's items in a response envelope.
    The store's `findRaw` call is an oracle from the request to either the
    matching items, in the store's order, or a failure with its message.
    Writing the response (`res.status(...).json(...)`) is modelled as the
    value the handler returns. */
module SearchController {
  import opened Errors

  /** `req.query.q` as Express parses it: absent, one string, or a list of
      strings when the parameter is repeated. */
  datatype QueryParam = Absent | Text(s: string) | Repeated(values: seq<string>)

  /** JavaScript truthiness of `q`: undefined and the empty string are false;
      every other string, whitespace included, and every list are true. */
  predicate Truthy(q: QueryParam) {
    match q
    case Absent => false
    case Text(s) => s != ""
    case Repeated(_) => true
  }

  /** A projected field either copies the stored field or is the text score. */
  datatype FieldSpec = Include | TextScoreMeta

  /** The `findRaw` request: `$text: { $search: q }`, a projection and a sort. */
  datatype TextSearchRequest = TextSearchRequest(
    search: QueryParam, projection: seq<(string, FieldSpec)>, sort: seq<(string, FieldSpec)>)

  const Projection: seq<(string, FieldSpec)> :=
    [("_id", Include), ("title", Include), ("description", Include),
     ("start_price", Include), ("reserve_price", Include), ("score", TextScoreMeta)]

  const SortByScore: seq<(string, FieldSpec)> := [("score", TextScoreMeta)]

  /** What the store's text search gives back. */
  datatype StoreOutcome<I> = Found(items: seq<I>) | StoreFailed(message: string)

  datatype Body<I> =
    | Results(items: seq<I>, count: nat, query: QueryParam)
    | ErrorBody(error: string, message: string)

  datatype Response<I> = Response(status: nat, body: Body<I>)

  /** One handled request: the store request issued, if any, and the reply. */
  datatype Exchange<I> = Exchange(storeCall: Option<TextSearchRequest>, response: Response<I>)

  const MissingQueryError: string := "Missing search query"
  const MissingQueryMessage: string := "Please provide a search term using the \"q\" query parameter"
  const SearchFailedError: string := "Search failed"

  /** The request the handler sends for a query. */
  function TextSearch(q: QueryParam): TextSearchRequest {
    TextSearchRequest(q, Projection, SortByScore)
  }

  function SearchItems<I>(q: QueryParam, store: TextSearchRequest -> StoreOutcome<I>): (x: Exchange<I>)
    // validation: `!q` rejects with 400 before the store is asked
    ensures x.response.status == 400 <==> !Truthy(q)
    ensures !Truthy(q) ==>
      x.storeCall == None &&
      x.response.body == ErrorBody("Missing search query",
                                   "Please provide a search term using the \"q\" query parameter")
    // every accepted query is sent as a text search with the fixed projection and sort
    ensures Truthy(q) ==> x.storeCall == Some(TextSearchRequest(q, Projection, SortByScore))
    ensures x.storeCall.Some? ==>
      x.storeCall.value.search == q &&
      x.storeCall.value.projection ==
        [("_id", Include), ("title", Include), ("description", Include),
         ("start_price", Include), ("reserve_price", Include), ("score", TextScoreMeta)] &&
      x.storeCall.value.sort == [("score", TextScoreMeta)]
    // success: the store's items, unchanged and in order, their count, the echoed query
    ensures x.response.status == 200 <==> Truthy(q) && store(TextSearch(q)).Found?
    ensures x.response.status == 200 ==>
      x.response.body.Results? &&
      x.response.body.items == store(TextSearch(q)).items &&
      x.response.body.count == |x.response.body.items| &&
      x.response.body.query == q
    // store failure: 500 with the failure's message
    ensures x.response.status == 500 <==> Truthy(q) && store(TextSearch(q)).StoreFailed?
    ensures x.response.status == 500 ==>
      x.response.body == ErrorBody("Search failed", store(TextSearch(q)).message)
  {
    if !Truthy(q) then
      Exchange(None, Response(400, ErrorBody(MissingQueryError, MissingQueryMessage)))
    else
      var request := TextSearch(q);
      match store(request)
      case Found(items) => Exchange(Some(request), Response(200, Results(items, |items|, q)))
      case StoreFailed(message) => Exchange(Some(request), Response(500, ErrorBody(SearchFailedError, message)))
  }

  /** Every reply is one of the three: 200, 400 or 500. */
  lemma StatusIsOneOfThree<I>(q: QueryParam, store: TextSearchRequest -> StoreOutcome<I>)
    ensures SearchItems(q, store).response.status in {200, 400, 500}
  {
  }

  /** A rejected query does not depend on the store: any two stores give
      the same exchange, so the store is not consulted. */
  lemma RejectedQueryIgnoresStore<I>(q: QueryParam, s1: TextSearchRequest -> StoreOutcome<I>,
                                     s2: TextSearchRequest -> StoreOutcome<I>)
    requires !Truthy(q)
    ensures SearchItems(q, s1) == SearchItems(q, s2)
  {
  }

  /** An accepted query's reply depends on the store only through its answer
      to this query's request. */
  lemma ReplyDependsOnlyOnStoreAnswer<I>(q: QueryParam, s1: TextSearchRequest -> StoreOutcome<I>,
                                         s2: TextSearchRequest -> StoreOutcome<I>)
    requires s1(TextSearch(q)) == s2(TextSearch(q))
    ensures SearchItems(q, s1) == SearchItems(q, s2)
  {
  }

  /** The check has no trimming: a query of blanks is sent to the store. */
  lemma BlankQueryIsSearched<I>(store: TextSearchRequest -> StoreOutcome<I>)
    ensures SearchItems(Text(" "), store).storeCall == Some(TextSearch(Text(" ")))
    ensures SearchItems(Text(" "), store).response.status != 400
  {
  }

  /** `q=wooden` against a store that finds items: 200, an item list, a
      numeric count and the query echoed. */
  lemma WoodenQuery<I>(items: seq<I>)
    ensures SearchItems(Text("wooden"), (_: TextSearchRequest) => Found(items)).response ==
      Response(200, Results(items, |items|, Text("wooden")))
  {
  }
}
