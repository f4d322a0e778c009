/** The control flow that the three web-search agents share
    (rag-backend/model_context_protocol.py, rag-backend/web_search_agent.py and
    rag-backend/web_search_stratergy.py each repeat it with their own prompt and
    message texts): search once, refuse when there is nothing to ground on,
    otherwise generate once; an exception from either service becomes a string. */
module WebAgentFlow {
  import opened Wrappers
  import opened Collaborators

  /** The texts and the prompt builder that distinguish one web agent from another. */
  datatype AgentTexts = AgentTexts(
    buildPrompt: (string, seq<WebResult>) -> string,
    noResults: string,
    searchErrorPrefix: string,
    llmErrorPrefix: string)

  /** The results a search reply carries: `search_response.get('results', [])`. */
  function ResultsOf(reply: SearchReply): seq<WebResult>
    requires reply.SearchAnswered?
  {
    reply.results.GetOr([])
  }

  /** One run of a web agent. */
  function SearchThenGenerate(question: string, maxResults: int, svc: Services, texts: AgentTexts): (r: Traced<string>)
    ensures 1 <= |r.calls| <= 2 && r.calls[0] == WebSearchCall(question, Advanced, maxResults)
    ensures NoKbSearch(r.calls)
  {
    var search := WebSearchCall(question, Advanced, maxResults);
    match svc.webSearch(question, Advanced, maxResults)
    case SearchRaised(e) => Traced(texts.searchErrorPrefix + e, [search])
    case SearchAnswered(found) =>
      var results := found.GetOr([]);
      if results == [] then
        Traced(texts.noResults, [search])
      else
        var prompt := texts.buildPrompt(question, results);
        match svc.generate(prompt)
        case LlmText(text) => Traced(text, [search, GenerateCall(prompt)])
        case LlmRaised(e) => Traced(texts.llmErrorPrefix + e, [search, GenerateCall(prompt)])
  }

  /** The generation service is called exactly when the search answered with at
      least one result, and then once, with the prompt built from those results. */
  lemma GeneratesOnlyOnResults(question: string, maxResults: int, svc: Services, texts: AgentTexts)
    ensures var reply := svc.webSearch(question, Advanced, maxResults);
      var r := SearchThenGenerate(question, maxResults, svc, texts);
      (|r.calls| == 2 <==> reply.SearchAnswered? && ResultsOf(reply) != []) &&
      (|r.calls| == 2 ==> r.calls[1] == GenerateCall(texts.buildPrompt(question, ResultsOf(reply))))
  {
  }

  /** Without results the agent answers with its fixed message and calls nothing more. */
  lemma NoResultsShortCircuits(question: string, maxResults: int, svc: Services, texts: AgentTexts)
    requires svc.webSearch(question, Advanced, maxResults).SearchAnswered?
    requires ResultsOf(svc.webSearch(question, Advanced, maxResults)) == []
    ensures SearchThenGenerate(question, maxResults, svc, texts)
         == Traced(texts.noResults, [WebSearchCall(question, Advanced, maxResults)])
  {
  }

  /** A search exception becomes the search-error prefix followed by its text, and
      nothing is generated. */
  lemma SearchErrorReported(question: string, maxResults: int, svc: Services, texts: AgentTexts)
    requires svc.webSearch(question, Advanced, maxResults).SearchRaised?
    ensures var e := svc.webSearch(question, Advanced, maxResults).detail;
      SearchThenGenerate(question, maxResults, svc, texts)
        == Traced(texts.searchErrorPrefix + e, [WebSearchCall(question, Advanced, maxResults)])
  {
  }

  /** A generation exception becomes the generation-error prefix followed by its text. */
  lemma GenerationErrorReported(question: string, maxResults: int, svc: Services, texts: AgentTexts)
    requires svc.webSearch(question, Advanced, maxResults).SearchAnswered?
    requires ResultsOf(svc.webSearch(question, Advanced, maxResults)) != []
    requires svc.generate(texts.buildPrompt(question, ResultsOf(svc.webSearch(question, Advanced, maxResults)))).LlmRaised?
    ensures var prompt := texts.buildPrompt(question, ResultsOf(svc.webSearch(question, Advanced, maxResults)));
      SearchThenGenerate(question, maxResults, svc, texts).value == texts.llmErrorPrefix + svc.generate(prompt).detail
  {
  }

  /** A successful generation on the results is returned as the model's text, unchanged. */
  lemma GenerationReturnsText(question: string, maxResults: int, svc: Services, texts: AgentTexts)
    requires svc.webSearch(question, Advanced, maxResults).SearchAnswered?
    requires ResultsOf(svc.webSearch(question, Advanced, maxResults)) != []
    requires svc.generate(texts.buildPrompt(question, ResultsOf(svc.webSearch(question, Advanced, maxResults)))).LlmText?
    ensures var prompt := texts.buildPrompt(question, ResultsOf(svc.webSearch(question, Advanced, maxResults)));
      SearchThenGenerate(question, maxResults, svc, texts).value == svc.generate(prompt).text
  {
  }
}
