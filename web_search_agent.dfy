/** The plain web-search agent (rag-backend/web_search_agent.py): a prompt that lists
    each web result with its title, URL and content, and the agent that searches,
    reports a failure on no results and otherwise asks the model. */
module WebSearch {
  import opened Wrappers
  import opened Text
  import opened Collaborators
  import opened WebAgentFlow

  const SystemInstruction: string :=
    "You are a professional, factual, and helpful research assistant. " +
    "Your goal is to answer the user's question accurately using ONLY the " +
    "information provided in the [SEARCH RESULTS] section. " +
    "If the search results do not contain the answer, you must state: " +
    "'I could not find a definitive answer in the search results.' " +
    "Answer concisely and use the source URLs for grounding."

  /** The words before the quoted question that close the prompt. */
  const QuestionLead: string := "Based ONLY on the search results, answer the question: '"

  const NoResultsMessage: string := "Web Search failed: Could not retrieve any search results."
  const SearchErrorPrefix: string :=
    " Tavily Search Error: Failed to perform web search. Check your TAVILY_API_KEY. Details: "
  const LlmErrorPrefix: string := " LLM Generation Error: Could not connect to the model. Details: "

  /** The heading of the `n`-th section. */
  function SourceHeading(n: nat): string {
    "--- Source " + NatToString(n) + " ---\n"
  }

  /** The lines of one result; a missing key gets its default. */
  function TitleLine(result: WebResult): string {
    "Title: " + result.title.GetOr("N/A") + "\n"
  }

  function UrlLine(result: WebResult): string {
    "URL: " + result.url.GetOr("N/A") + "\n"
  }

  function ContentLine(result: WebResult): string {
    "Content: " + result.content.GetOr("No content available.") + "\n"
  }

  /** The section for the `n`-th result (numbered from 1). */
  function SourceSection(n: nat, result: WebResult): string {
    SourceHeading(n) + TitleLine(result) + UrlLine(result) + ContentLine(result)
  }

  /** One section per result, in input order. */
  function ContextSections(searchResults: seq<WebResult>): seq<string> {
    seq(|searchResults|, i requires 0 <= i < |searchResults| => SourceSection(i + 1, searchResults[i]))
  }

  /** The instruction and the header of the results block. */
  const Opening: string :=
    SystemInstruction + "\n\n" + "============================\n" + "[SEARCH RESULTS]\n"

  /** The rule that closes the results block, and the question header. */
  const ClosingRule: string := "\n" + "============================\n\n" + "[USER QUESTION]\n"

  function QuestionLine(question: string): string {
    QuestionLead + question + "'"
  }

  /** The instruction, the results block between its header and closing rule, and the
      quoted question. */
  function FramePrompt(contextString: string, question: string): string {
    Opening + contextString + ClosingRule + QuestionLine(question)
  }

  /** The prompt `create_web_rag_prompt` returns. */
  function WebRagPrompt(question: string, searchResults: seq<WebResult>): string {
    FramePrompt(Join("\n\n", ContextSections(searchResults)), question)
  }

  /** Builds the prompt section by section, as the source's loop does. */
  method CreateWebRagPrompt(question: string, searchResults: seq<WebResult>) returns (finalPrompt: string)
    ensures finalPrompt == WebRagPrompt(question, searchResults)
  {
    var contextSections: seq<string> := [];
    var i := 0;
    while i < |searchResults|
      invariant 0 <= i <= |searchResults|
      invariant |contextSections| == i
      invariant forall j :: 0 <= j < i ==> contextSections[j] == SourceSection(j + 1, searchResults[j])
    {
      contextSections := contextSections + [SourceSection(i + 1, searchResults[i])];
      i := i + 1;
    }
    assert contextSections == ContextSections(searchResults);
    var contextString := Join("\n\n", contextSections);
    finalPrompt := FramePrompt(contextString, question);
  }

  /** The texts that make the shared web-agent flow into this file's `WebSearchAgent`. */
  const Texts: AgentTexts := AgentTexts(WebRagPrompt, NoResultsMessage, SearchErrorPrefix, LlmErrorPrefix)

  /** `WebSearchAgent`: an advanced-depth search for at most `maxResults` results,
      then one generation. */
  function WebSearchAgent(question: string, svc: Services, maxResults: int := 5): (r: Traced<string>)
    ensures 1 <= |r.calls| <= 2 && r.calls[0] == WebSearchCall(question, Advanced, maxResults)
    ensures NoKbSearch(r.calls)
  {
    SearchThenGenerate(question, maxResults, svc, Texts)
  }

  /** The prompt opens with the instruction and closes with the quoted question. */
  lemma PromptFraming(question: string, searchResults: seq<WebResult>)
    ensures StartsWith(WebRagPrompt(question, searchResults), SystemInstruction)
    ensures EndsWith(WebRagPrompt(question, searchResults), QuestionLead + question + "'")
  {
    var ctx := Join("\n\n", ContextSections(searchResults));
    Concat4Parts(SystemInstruction, "\n\n", "============================\n", "[SEARCH RESULTS]\n");
    Concat4Parts(Opening, ctx, ClosingRule, QuestionLine(question));
    StartsWithTrans(WebRagPrompt(question, searchResults), Opening, SystemInstruction);
  }

  /** Section `i` is headed `--- Source i+1 ---`, a number that reads back as `i+1`,
      and shows the result's title, URL and content or their defaults. */
  lemma SectionTagged(searchResults: seq<WebResult>, i: nat)
    requires i < |searchResults|
    ensures DecimalValue(NatToString(i + 1)) == i + 1
    ensures StartsWith(ContextSections(searchResults)[i], "--- Source " + NatToString(i + 1) + " ---\n")
    ensures searchResults[i].title.None? ==>
      Occurs("Title: " + "N/A" + "\n", ContextSections(searchResults)[i])
    ensures searchResults[i].url.None? ==>
      Occurs("URL: " + "N/A" + "\n", ContextSections(searchResults)[i])
    ensures searchResults[i].content.None? ==>
      EndsWith(ContextSections(searchResults)[i], "Content: " + "No content available." + "\n")
  {
    DecimalRoundTrip(i + 1);
    var r := searchResults[i];
    Concat4Parts(SourceHeading(i + 1), TitleLine(r), UrlLine(r), ContentLine(r));
  }

  /** One more result appends one more section after a blank line: sections keep input order. */
  lemma ContextGrows(searchResults: seq<WebResult>, result: WebResult)
    requires searchResults != []
    ensures Join("\n\n", ContextSections(searchResults + [result]))
         == Join("\n\n", ContextSections(searchResults)) + "\n\n" + SourceSection(|searchResults| + 1, result)
  {
    assert ContextSections(searchResults + [result])
        == ContextSections(searchResults) + [SourceSection(|searchResults| + 1, result)];
    JoinSnoc("\n\n", ContextSections(searchResults), SourceSection(|searchResults| + 1, result));
  }

  /** No results: the failure message, and the model is not called. */
  lemma EmptyResultsReported(question: string, svc: Services, maxResults: int)
    requires svc.webSearch(question, Advanced, maxResults).SearchAnswered?
    requires ResultsOf(svc.webSearch(question, Advanced, maxResults)) == []
    ensures WebSearchAgent(question, svc, maxResults)
         == Traced(NoResultsMessage, [WebSearchCall(question, Advanced, maxResults)])
  {
    NoResultsShortCircuits(question, maxResults, svc, Texts);
  }

  /** Exceptions from either service come back as prefixed strings. */
  lemma ErrorsBecomeText(question: string, svc: Services, maxResults: int)
    ensures var reply := svc.webSearch(question, Advanced, maxResults);
      var a := WebSearchAgent(question, svc, maxResults).value;
      (reply.SearchRaised? ==> a == SearchErrorPrefix + reply.detail) &&
      (reply.SearchAnswered? && ResultsOf(reply) != [] &&
       svc.generate(WebRagPrompt(question, ResultsOf(reply))).LlmRaised? ==>
         a == LlmErrorPrefix + svc.generate(WebRagPrompt(question, ResultsOf(reply))).detail)
  {
    var reply := svc.webSearch(question, Advanced, maxResults);
    if reply.SearchRaised? {
      SearchErrorReported(question, maxResults, svc, Texts);
    } else if ResultsOf(reply) != [] && svc.generate(WebRagPrompt(question, ResultsOf(reply))).LlmRaised? {
      GenerationErrorReported(question, maxResults, svc, Texts);
    }
  }

  /** Without an explicit limit the agent asks for five results at advanced depth. */
  lemma DefaultSearchRequest(question: string, svc: Services)
    ensures WebSearchAgent(question, svc).calls[0] == WebSearchCall(question, Advanced, 5)
  {
  }

  /** A successful generation on the search results is the agent's answer, unchanged. */
  lemma AnswerIsGeneratedText(question: string, svc: Services, maxResults: int)
    requires svc.webSearch(question, Advanced, maxResults).SearchAnswered?
    requires ResultsOf(svc.webSearch(question, Advanced, maxResults)) != []
    requires svc.generate(WebRagPrompt(question, ResultsOf(svc.webSearch(question, Advanced, maxResults)))).LlmText?
    ensures WebSearchAgent(question, svc, maxResults).value
         == svc.generate(WebRagPrompt(question, ResultsOf(svc.webSearch(question, Advanced, maxResults)))).text
  {
    GenerationReturnsText(question, maxResults, svc, Texts);
  }
}
