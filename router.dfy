/** The single-result routing agent (rag-backend/router_agent.py): a threshold test
    on the distance of the best vector-store hit. */
module Router {
  import opened Collaborators

  /** The two answer strategies. */
  datatype Route = KbRoute | WebRoute {
    /** The label the source uses for the route. */
    function Name(): string {
      match this
      case KbRoute => "KB_RESPONSE"
      case WebRoute => "WEB_SEARCH"
    }
  }

  /** A best hit strictly closer than this routes to the knowledge base. */
  const HighConfidenceThreshold: real := 0.45

  /** The branch on the search results: an empty list, or a best distance at or above
      the threshold, routes to the web. */
  function RouteFor(searchResults: seq<Hit>): (r: Route)
    ensures r == KbRoute <==> searchResults != [] && searchResults[0].distance < HighConfidenceThreshold
  {
    if searchResults != [] then
      if searchResults[0].distance < HighConfidenceThreshold then KbRoute else WebRoute
    else
      WebRoute
  }

  /** Searches the knowledge base once for the question and routes on the result. */
  function RouterAgent(question: string, kbSearchFunction: (string, int) -> seq<Hit>, k: int := 1): (r: Traced<Route>)
    ensures r.calls == [KbSearchCall(question, k)]
    ensures r.value == KbRoute <==>
      var hits := kbSearchFunction(question, k);
      hits != [] && hits[0].distance < HighConfidenceThreshold
  {
    Traced(RouteFor(kbSearchFunction(question, k)), [KbSearchCall(question, k)])
  }

  /** The route labels are exactly the two constants of the source. */
  lemma RouteNames(r: Route)
    ensures r.Name() == "KB_RESPONSE" || r.Name() == "WEB_SEARCH"
    ensures r.Name() == "KB_RESPONSE" <==> r == KbRoute
  {
  }

  /** No hits: the web. */
  lemma EmptyRoutesToWeb()
    ensures RouteFor([]) == WebRoute
  {
  }

  /** The comparison is strict: a best distance equal to the threshold goes to the web. */
  lemma ThresholdIsExclusive(hits: seq<Hit>)
    requires hits != [] && hits[0].distance == HighConfidenceThreshold
    ensures RouteFor(hits) == WebRoute
  {
  }

  /** Only the first hit's distance matters. */
  lemma OnlyFirstHitMatters(a: seq<Hit>, b: seq<Hit>)
    requires a != [] && b != [] && a[0].distance == b[0].distance
    ensures RouteFor(a) == RouteFor(b)
  {
  }

  /** A closer best hit never moves a knowledge-base route to the web. */
  lemma RouteMonotone(a: seq<Hit>, b: seq<Hit>)
    requires RouteFor(a) == KbRoute
    requires b != [] && b[0].distance <= a[0].distance
    ensures RouteFor(b) == KbRoute
  {
  }
}
