/** The request pipeline (rag-backend/ai_gateway.py): input check, retrieval of five
    hits, the threshold route and its confidence, one answer agent, output check,
    and a tagged response. */
module Gateway {
  import opened Text
  import opened Collaborators
  import opened Guardrails
  import opened Router
  import opened KbResponse
  import opened ModelContextProtocol

  /** What the gateway returns: a rejected query (400), a blocked answer (403), or a
      served answer with its route and confidence (200). Exactly one of a message
      and a solution is present in each. */
  datatype GatewayResponse =
    | Rejected(message: string)
    | Blocked(message: string)
    | Served(mode: Route, solution: string, confidence: real)
  {
    function Mode(): string {
      match this
      case Rejected(_) => "REJECTED"
      case Blocked(_) => "BLOCKED"
      case Served(route, _, _) => route.Name()
    }

    function Status(): string {
      match this
      case Rejected(_) => "400_BAD_INPUT"
      case Blocked(_) => "403_FORBIDDEN"
      case Served(_, _, _) => "200_OK"
    }
  }

  const RejectionMessage: string := "Input rejected: Query does not meet the strict Math relevancy policy."

  /** The answer for a mode neither agent handles; no route reaches it. */
  const RoutingFailure: string := "Error: Routing failure or unhandled mode."

  /** The number of hits the gateway retrieves for routing. */
  const RoutingHits: int := 5

  /** The routing variables after the decision: the mode, the context handed to the
      knowledge-base agent, and the confidence reported with the answer. */
  datatype Routing = Routing(mode: Route, context: seq<Hit>, confidence: real)

  /** The gateway's own routing decision on the retrieved hits. */
  function RouteHits(hits: seq<Hit>): (r: Routing)
    ensures r.mode == KbRoute <==> hits != [] && hits[0].distance < HighConfidenceThreshold
    ensures r.context == (if r.mode == KbRoute then hits else [])
    ensures r.confidence == (if hits == [] then 0.0 else 1.0 - hits[0].distance)
  {
    if hits == [] then Routing(WebRoute, [], 0.0)
    else if hits[0].distance < HighConfidenceThreshold then Routing(KbRoute, hits, 1.0 - hits[0].distance)
    else Routing(WebRoute, [], 1.0 - hits[0].distance)
  }

  /** The answer agent the mode selects: the knowledge-base agent on the context,
      or the grounded web agent on the query alone. */
  function Synthesize(query: string, routing: Routing, svc: Services): (r: Traced<string>)
    ensures NoKbSearch(r.calls)
    ensures routing.mode == KbRoute && routing.context != [] ==>
      r.calls == [GenerateCall(RagPrompt(query, routing.context, svc.formatDistance))]
    ensures routing.mode == WebRoute ==>
      1 <= |r.calls| <= 2 && r.calls[0] == WebSearchCall(query, Advanced, 5)
  {
    match routing.mode
    case KbRoute => KbResponseAgent(query, routing.context, svc)
    case WebRoute => WebSearchAgentMcp(query, svc)
  }

  /** The response for a synthesized answer: blocked when the output check changes
      it, served unchanged otherwise. */
  function Respond(routing: Routing, finalSolution: string): (r: GatewayResponse)
    ensures !r.Rejected?
    ensures r.Blocked? <==> Flagged(finalSolution)
    ensures r.Blocked? ==> r.message == BlockMessage
    ensures r.Served? ==>
      r.solution == finalSolution && r.mode == routing.mode && r.confidence == routing.confidence
  {
    var guardedOutput := OutputGuardrail(finalSolution);
    if guardedOutput != finalSolution then Blocked(guardedOutput)
    else Served(routing.mode, guardedOutput, routing.confidence)
  }

  /** The whole request, as a function of the query and the services. */
  function Gateway(query: string, svc: Services): (r: Traced<GatewayResponse>)
    ensures r.value.Rejected? <==> !InputGuardrail(query)
    ensures r.value.Rejected? ==> r.calls == []
    ensures !r.value.Rejected? ==> |r.calls| >= 2 && r.calls[0] == KbSearchCall(query, RoutingHits)
    ensures r.value.Served? ==> r.value.mode == RouteFor(svc.kbSearch(query, RoutingHits))
  {
    if !InputGuardrail(query) then
      Traced(Rejected(RejectionMessage), [])
    else
      var routing := RouteHits(svc.kbSearch(query, RoutingHits));
      var answer := Synthesize(query, routing, svc);
      Traced(Respond(routing, answer.value), [KbSearchCall(query, RoutingHits)] + answer.calls)
  }

  /** `process_query_through_gateway`, with its routing variables set to defaults and
      then overwritten step by step. `level` is accepted and unused, as in the source. */
  method ProcessQueryThroughGateway(query: string, svc: Services, level: string := "unspecified")
    returns (response: GatewayResponse, calls: seq<Call>)
    ensures Traced(response, calls) == Gateway(query, svc)
    ensures response.Rejected? <==> !InputGuardrail(query)
    ensures response.Rejected? ==> calls == []
  {
    if !InputGuardrail(query) {
      return Rejected(RejectionMessage), [];
    }

    var kbHitsForRouting := svc.kbSearch(query, RoutingHits);
    calls := [KbSearchCall(query, RoutingHits)];

    var mode := WebRoute;
    var contextForLlm: seq<Hit> := [];
    var confidence: real := 0.0;

    if kbHitsForRouting != [] {
      var topDistance := kbHitsForRouting[0].distance;
      confidence := 1.0 - topDistance;
      if topDistance < HighConfidenceThreshold {
        mode := KbRoute;
        contextForLlm := kbHitsForRouting;
      }
    }
    assert Routing(mode, contextForLlm, confidence) == RouteHits(kbHitsForRouting);

    var finalSolution := "";
    if mode == KbRoute {
      var run := KbResponseAgent(query, contextForLlm, svc);
      finalSolution, calls := run.value, calls + run.calls;
    } else if mode == WebRoute {
      var run := WebSearchAgentMcp(query, svc);
      finalSolution, calls := run.value, calls + run.calls;
    } else {
      finalSolution := RoutingFailure;
      assert false;
    }

    var guardedOutput := OutputGuardrail(finalSolution);
    if guardedOutput != finalSolution {
      return Blocked(guardedOutput), calls;
    }
    response := Served(mode, guardedOutput, confidence);
  }

  /** A query that fails the input check is rejected with status 400 before any
      service is called. */
  lemma RejectedBeforeAnyCall(query: string, svc: Services)
    requires !InputGuardrail(query)
    ensures Gateway(query, svc).value == Rejected(RejectionMessage)
    ensures Gateway(query, svc).value.Status() == "400_BAD_INPUT"
    ensures Gateway(query, svc).calls == []
  {
  }

  /** An accepted query starts with one retrieval of five hits, the only vector-store
      call of the request. */
  lemma RetrievesFiveHitsOnce(query: string, svc: Services)
    requires InputGuardrail(query)
    ensures var calls := Gateway(query, svc).calls;
      |calls| >= 2 && calls[0] == KbSearchCall(query, 5) && NoKbSearch(calls[1..])
  {
    var routing := RouteHits(svc.kbSearch(query, RoutingHits));
    var answer := Synthesize(query, routing, svc);
    assert ([KbSearchCall(query, RoutingHits)] + answer.calls)[1..] == answer.calls;
  }

  /** The reported confidence: 0.0 without hits (and then the web route), otherwise
      one minus the best distance, whichever route is taken. */
  lemma ServedConfidence(query: string, svc: Services)
    requires Gateway(query, svc).value.Served?
    ensures var hits := svc.kbSearch(query, 5);
      var r := Gateway(query, svc).value;
      (hits == [] ==> r.mode == WebRoute && r.confidence == 0.0) &&
      (hits != [] ==> r.confidence == 1.0 - hits[0].distance)
  {
  }

  /** The gateway's inline threshold test is the routing agent's decision on the same hits. */
  lemma InlineRouteIsRouterDecision(hits: seq<Hit>)
    ensures RouteHits(hits).mode == RouteFor(hits)
  {
  }

  /** The gateway and `RouterAgent` (which asks for `k` hits, one by default) pick the
      same route whenever the two searches agree on whether there is a hit and on the
      best distance. */
  lemma GatewayAgreesWithRouterAgent(query: string, svc: Services, k: int)
    requires InputGuardrail(query)
    requires var five, few := svc.kbSearch(query, 5), svc.kbSearch(query, k);
      (five == [] <==> few == []) && (five != [] ==> five[0].distance == few[0].distance)
    requires Gateway(query, svc).value.Served?
    ensures Gateway(query, svc).value.mode == RouterAgent(query, svc.kbSearch, k).value
  {
    var five, few := svc.kbSearch(query, 5), svc.kbSearch(query, k);
    InlineRouteIsRouterDecision(five);
    if five != [] {
      OnlyFirstHitMatters(five, few);
    }
  }

  /** Dispatch: on the knowledge-base route the agent is given every retrieved hit (a
      non-empty list, so it always asks the model); on the web route the web agent is
      given only the query. */
  lemma DispatchesOnRoute(query: string, svc: Services)
    requires InputGuardrail(query)
    ensures var hits := svc.kbSearch(query, 5);
      var calls := Gateway(query, svc).calls;
      if RouteFor(hits) == KbRoute then
        hits != [] &&
        calls == [KbSearchCall(query, 5), GenerateCall(RagPrompt(query, hits, svc.formatDistance))]
      else
        calls == [KbSearchCall(query, 5)] + WebSearchAgentMcp(query, svc).calls
  {
  }

  /** A synthesized answer that the output check would change is never returned: the
      response is the block message with status 403. Otherwise the answer is served
      unchanged with status 200 and the route's label as mode. */
  lemma OutputCheckDecides(query: string, svc: Services)
    requires InputGuardrail(query)
    ensures var routing := RouteHits(svc.kbSearch(query, 5));
      var answer := Synthesize(query, routing, svc).value;
      var r := Gateway(query, svc).value;
      (r.Blocked? <==> Flagged(answer)) &&
      (r.Blocked? ==> r.message == BlockMessage && r.Status() == "403_FORBIDDEN") &&
      (r.Served? ==> r.solution == answer && r.Status() == "200_OK" &&
                     (r.Mode() == "KB_RESPONSE" || r.Mode() == "WEB_SEARCH"))
  {
  }

  /** "Explain the chain rule with calculus" passes the input check ("calculus"
      occurs in it). */
  lemma ChainRuleQueryIsAccepted()
    ensures InputGuardrail("Explain the chain rule with calculus")
  {
    var q := "Explain the chain rule with calculus";
    assert MathKeywords[4] == "calculus";
    assert q[28..36] == "calculus";
    assert Lower("calculus")[0..8] == "calculus";
    AcceptedAt(q, 28, 4);
  }

  /** Worked example: an accepted query whose best hit is at distance 0.2 and whose
      knowledge-base answer is not flagged is served from the knowledge base with
      confidence 0.8 and status 200. */
  lemma CloseHitServedFromKnowledgeBase(query: string, svc: Services)
    requires InputGuardrail(query)
    requires svc.kbSearch(query, 5) != [] && svc.kbSearch(query, 5)[0].distance == 0.2
    requires !Flagged(KbResponseAgent(query, svc.kbSearch(query, 5), svc).value)
    ensures var r := Gateway(query, svc).value;
      r.Served? && r.mode == KbRoute && r.confidence == 0.8 && r.Status() == "200_OK"
  {
  }

  /** The query "random trivia question unrelated to math" passes the input check,
      because "math" occurs in it. */
  lemma TriviaQueryIsAccepted()
    ensures InputGuardrail("random trivia question unrelated to math")
  {
    var q := "random trivia question unrelated to math";
    assert MathKeywords[0] == "math";
    assert q[36..40] == "math";
    assert Lower("math")[0..4] == "math";
    AcceptedAt(q, 36, 0);
  }
}
