/** The grounded web-search agent (rag-backend/model_context_protocol.py): a prompt
    that numbers each web result as a cited source, and the agent that searches,
    refuses on no results and otherwise asks the model. */
module ModelContextProtocol {
  import opened Wrappers
  import opened Text
  import opened Collaborators
  import opened WebAgentFlow

  /** The refusal the prompt's rule 3 requires, returned verbatim when the search finds nothing. */
  const RefusalPhrase: string :=
    "Insufficient context: I cannot construct a complete, grounded solution based only on the provided web snippets."

  /** The system instruction, up to the point where rule 3 quotes its refusal. */
  const InstructionPreamble: string :=
    "You are a highly constrained, expert research agent specializing in Math and (JEE/Advanced level). " +
    "Your response MUST adhere to the following **Model Context Protocol (MCP) rules**:\n" +
    "1. **Attribution:** Cite the [Source X] URL(s) immediately after every factual statement or step you use from the context.\n" +
    "2. **Grounding (Zero Hallucination):** You MUST use ONLY the content explicitly provided in the [SEARCH CONTEXT]. Do not use any internal knowledge or external information.\n" +
    "3. **Refusal:** If the provided [SEARCH CONTEXT] does not contain sufficient information to generate a complete, step-by-step solution, you must output the exact phrase: "

  /** The refusal as rule 3 quotes it. */
  const QuotedRefusal: string :=
    "'" + "Insufficient context: I cannot construct a complete, grounded solution based only on the provided web snippets." + "'"

  const InstructionTail: string :=
    "\n" +
    "4. **Format:** Generate the answer as a simplified, numbered, step-by-step solution. Preserve mathematical notation (like LaTeX) exactly.\n"

  /** The grounding, attribution, refusal and format rules the prompt opens with. */
  const SystemInstruction: string := InstructionPreamble + QuotedRefusal + InstructionTail

  const SearchErrorPrefix: string := " Tavily Search Error: "
  const LlmErrorPrefix: string := " LLM Generation Error: "

  /** The tag of the `n`-th source. */
  function SourceTag(n: nat): string {
    "[Source " + NatToString(n) + "]"
  }

  function UrlLine(result: WebResult): string {
    "URL: " + result.url.GetOr("N/A") + "\n"
  }

  function ContentLine(result: WebResult): string {
    "Content: " + result.content.GetOr("No content available.") + "\n"
  }

  /** The heading of the `n`-th section. */
  function SourceHeading(n: nat): string {
    "--- " + SourceTag(n) + " ---\n"
  }

  /** The section for the `n`-th result (numbered from 1); a missing key gets its default. */
  function SourceSection(n: nat, result: WebResult): string {
    SourceHeading(n) + UrlLine(result) + ContentLine(result)
  }

  /** One section per result, in input order. */
  function ContextSections(searchResults: seq<WebResult>): seq<string> {
    seq(|searchResults|, i requires 0 <= i < |searchResults| => SourceSection(i + 1, searchResults[i]))
  }

  /** The instruction and the header of the context block. */
  const Opening: string :=
    SystemInstruction + "\n\n" + "============================\n" + "[SEARCH CONTEXT]\n"

  /** The rule that closes the context block, and the question header. */
  const ClosingRule: string := "\n" + "============================\n\n" + "[USER QUESTION]\n"

  /** The words before the quoted question that close the prompt. */
  const QuestionLead: string := "Provide the step-by-step, grounded solution for: '"

  function QuestionLine(question: string): string {
    QuestionLead + question + "'"
  }

  /** The instruction, the context block between its header and closing rule, and the
      quoted question. */
  function FramePrompt(contextString: string, question: string): string {
    Opening + contextString + ClosingRule + QuestionLine(question)
  }

  /** The prompt `create_mcp_web_rag_prompt` returns. */
  function McpWebRagPrompt(question: string, searchResults: seq<WebResult>): string {
    FramePrompt(Join("\n\n", ContextSections(searchResults)), question)
  }

  /** Builds the prompt section by section, as the source's loop does. */
  method CreateMcpWebRagPrompt(question: string, searchResults: seq<WebResult>) returns (finalPrompt: string)
    ensures finalPrompt == McpWebRagPrompt(question, searchResults)
  {
    var contextSections: seq<string> := [];
    var i := 0;
    while i < |searchResults|
      invariant 0 <= i <= |searchResults|
      invariant |contextSections| == i
      invariant forall j :: 0 <= j < i ==> contextSections[j] == SourceSection(j + 1, searchResults[j])
    {
      contextSections := contextSections + [SourceSection(i + 1, searchResults[i])];
      i := i + 1;
    }
    assert contextSections == ContextSections(searchResults);
    var contextString := Join("\n\n", contextSections);
    finalPrompt := FramePrompt(contextString, question);
  }

  /** The texts that make the shared web-agent flow into `WebSearchAgent_MCP`. */
  const McpTexts: AgentTexts := AgentTexts(McpWebRagPrompt, RefusalPhrase, SearchErrorPrefix, LlmErrorPrefix)

  /** `WebSearchAgent_MCP`: an advanced-depth search for at most `maxResults` results,
      then one grounded generation. */
  function WebSearchAgentMcp(question: string, svc: Services, maxResults: int := 5): (r: Traced<string>)
    ensures 1 <= |r.calls| <= 2 && r.calls[0] == WebSearchCall(question, Advanced, maxResults)
    ensures NoKbSearch(r.calls)
  {
    SearchThenGenerate(question, maxResults, svc, McpTexts)
  }

  /** The prompt opens with the instruction and closes with the quoted question. */
  lemma PromptFraming(question: string, searchResults: seq<WebResult>)
    ensures StartsWith(McpWebRagPrompt(question, searchResults), SystemInstruction)
    ensures EndsWith(McpWebRagPrompt(question, searchResults), QuestionLead + question + "'")
  {
    var ctx := Join("\n\n", ContextSections(searchResults));
    Concat4Parts(SystemInstruction, "\n\n", "============================\n", "[SEARCH CONTEXT]\n");
    Concat4Parts(Opening, ctx, ClosingRule, QuestionLine(question));
    StartsWithTrans(McpWebRagPrompt(question, searchResults), Opening, SystemInstruction);
  }

  /** Section `i` is tagged `[Source i+1]`, a tag whose number reads back as `i+1`,
      and shows the result's URL and content or their defaults. */
  lemma SectionTagged(searchResults: seq<WebResult>, i: nat)
    requires i < |searchResults|
    ensures DecimalValue(NatToString(i + 1)) == i + 1
    ensures SourceTag(i + 1) == "[Source " + NatToString(i + 1) + "]"
    ensures StartsWith(ContextSections(searchResults)[i], "--- " + SourceTag(i + 1) + " ---\n")
    ensures searchResults[i].url.None? ==> Occurs("URL: " + "N/A" + "\n", ContextSections(searchResults)[i])
    ensures searchResults[i].content.None? ==>
      EndsWith(ContextSections(searchResults)[i], "Content: " + "No content available." + "\n")
  {
    DecimalRoundTrip(i + 1);
    var r := searchResults[i];
    ConcatEnds(SourceHeading(i + 1), UrlLine(r) + ContentLine(r));
    ConcatEnds(SourceHeading(i + 1) + UrlLine(r), ContentLine(r));
    ConcatMiddle(SourceHeading(i + 1), UrlLine(r), ContentLine(r));
  }

  /** One more result appends one more section after a blank line: sections keep input order. */
  lemma ContextGrows(searchResults: seq<WebResult>, result: WebResult)
    requires searchResults != []
    ensures Join("\n\n", ContextSections(searchResults + [result]))
         == Join("\n\n", ContextSections(searchResults)) + "\n\n" + SourceSection(|searchResults| + 1, result)
  {
    assert ContextSections(searchResults + [result])
        == ContextSections(searchResults) + [SourceSection(|searchResults| + 1, result)];
    JoinSnoc("\n\n", ContextSections(searchResults), SourceSection(|searchResults| + 1, result));
  }

  /** The text returned when the search finds nothing is the very phrase rule 3 of
      the instruction quotes. */
  lemma RefusalMatchesRuleThree()
    ensures Occurs("'" + RefusalPhrase + "'", SystemInstruction)
  {
    assert QuotedRefusal == "'" + RefusalPhrase + "'";
    ConcatMiddle(InstructionPreamble, QuotedRefusal, InstructionTail);
  }

  /** No results: the refusal phrase, and the model is not called. */
  lemma EmptyResultsRefuse(question: string, svc: Services, maxResults: int)
    requires svc.webSearch(question, Advanced, maxResults).SearchAnswered?
    requires ResultsOf(svc.webSearch(question, Advanced, maxResults)) == []
    ensures WebSearchAgentMcp(question, svc, maxResults)
         == Traced(RefusalPhrase, [WebSearchCall(question, Advanced, maxResults)])
  {
    NoResultsShortCircuits(question, maxResults, svc, McpTexts);
  }

  /** Exceptions from either service come back as prefixed strings. */
  lemma ErrorsBecomeText(question: string, svc: Services, maxResults: int)
    ensures var reply := svc.webSearch(question, Advanced, maxResults);
      var a := WebSearchAgentMcp(question, svc, maxResults).value;
      (reply.SearchRaised? ==> a == SearchErrorPrefix + reply.detail) &&
      (reply.SearchAnswered? && ResultsOf(reply) != [] &&
       svc.generate(McpWebRagPrompt(question, ResultsOf(reply))).LlmRaised? ==>
         a == LlmErrorPrefix + svc.generate(McpWebRagPrompt(question, ResultsOf(reply))).detail)
  {
    var reply := svc.webSearch(question, Advanced, maxResults);
    if reply.SearchRaised? {
      SearchErrorReported(question, maxResults, svc, McpTexts);
    } else if ResultsOf(reply) != [] && svc.generate(McpWebRagPrompt(question, ResultsOf(reply))).LlmRaised? {
      GenerationErrorReported(question, maxResults, svc, McpTexts);
    }
  }

  /** Called as the gateway calls it, the agent asks for five results at advanced depth. */
  lemma DefaultSearchRequest(question: string, svc: Services)
    ensures WebSearchAgentMcp(question, svc).calls[0] == WebSearchCall(question, Advanced, 5)
  {
  }

  /** A successful generation on the search results is the agent's answer, unchanged. */
  lemma AnswerIsGeneratedText(question: string, svc: Services, maxResults: int)
    requires svc.webSearch(question, Advanced, maxResults).SearchAnswered?
    requires ResultsOf(svc.webSearch(question, Advanced, maxResults)) != []
    requires svc.generate(McpWebRagPrompt(question, ResultsOf(svc.webSearch(question, Advanced, maxResults)))).LlmText?
    ensures WebSearchAgentMcp(question, svc, maxResults).value
         == svc.generate(McpWebRagPrompt(question, ResultsOf(svc.webSearch(question, Advanced, maxResults)))).text
  {
    GenerationReturnsText(question, maxResults, svc, McpTexts);
  }
}
